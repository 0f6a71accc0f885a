// Test case 6 of the people counter's test program, instant by instant.
// `LeftReading<k>` and `RightReading<k>` are what the k-th left and right
// readings do; `From<k>` runs the scenario from instant k to the end. The
// opening readings and the readings that change nothing are shared by the
// scenarios (`OpeningInstant`, `OpeningLeftReading`, `QuietReading`). Its
// next readings are those of test case 3, and come from there.

module CollisionScenario {
  import opened PeakDetection
  import opened PeakDetectorProperties
  import opened PeopleCounting
  import opened PeopleCounterProperties
  import opened PeopleCounterScenarios
  import TurnBackScenario

  lemma RightReading4(s: CounterState, c: int)
    requires CounterIs(s, Occupied, Vacant, Det([1600, 1500, 1400, 1500], 0, 1880), Floor,
                       Clear, InitialData, c)
    ensures CounterIs(AfterAddData(s, 1780, Right), Occupied, Vacant, Det([1600, 1500, 1400, 1500], 0, 1880), Floor,
                      Clear, InitialData, c)
  {
  }

  lemma LeftReading5(s: CounterState, c: int)
    requires CounterIs(s, Occupied, Vacant, Det([1600, 1500, 1400, 1500], 0, 1880), Floor,
                       Clear, InitialData, c)
    ensures CounterIs(AfterAddData(s, 1600, Left), Occupied, Vacant, Det([1600, 1500, 1400, 1500, 1600], 1, 1400), Floor,
                      Trk(1, false, PeakData(LeftZone, 1400), Empty, Empty), PeopleCounterData(LeftZone, LeftZone, false, 0, 0), c)
  {
    ValleyByEndpoints([1600, 1500, 1400, 1500, 1600], 10);
    Fill(s.left, Det([1600, 1500, 1400, 1500], 0, 1880), 1600);
  }

  lemma RightReading5(s: CounterState, c: int)
    requires CounterIs(s, Occupied, Vacant, Det([1600, 1500, 1400, 1500, 1600], 1, 1400), Floor,
                       Trk(1, false, PeakData(LeftZone, 1400), Empty, Empty), PeopleCounterData(LeftZone, LeftZone, false, 0, 0), c)
    ensures CounterIs(AfterAddData(s, 1600, Right), Occupied, Occupied, Det([1600, 1500, 1400, 1500, 1600], 1, 1400), Det([1600], 0, 1880),
                      Trk(1, false, PeakData(LeftZone, 1400), Empty, Empty), PeopleCounterData(LeftZone, LeftZone, true, 0, 0), c)
  {
    ValleyByEndpoints([1600, 1500, 1400, 1500, 1600], 10);
  }

  lemma LeftReading6(s: CounterState, c: int)
    requires CounterIs(s, Occupied, Occupied, Det([1600, 1500, 1400, 1500, 1600], 1, 1400), Det([1600], 0, 1880),
                       Trk(1, false, PeakData(LeftZone, 1400), Empty, Empty), PeopleCounterData(LeftZone, LeftZone, true, 0, 0), c)
    ensures CounterIs(AfterAddData(s, 1550, Left), Occupied, Occupied, Det([1550], 1, 1400), Det([1600], 0, 1880),
                      Trk(1, false, PeakData(LeftZone, 1400), Empty, Empty), PeopleCounterData(LeftZone, LeftZone, true, 0, 0), c)
  {
    ValleyByEndpoints([1600, 1500, 1400, 1500, 1600], 10);
    Restart(s.left, Det([1600, 1500, 1400, 1500, 1600], 1, 1400), 1550);
  }

  lemma RightReading6(s: CounterState, c: int)
    requires CounterIs(s, Occupied, Occupied, Det([1550], 1, 1400), Det([1600], 0, 1880),
                       Trk(1, false, PeakData(LeftZone, 1400), Empty, Empty), PeopleCounterData(LeftZone, LeftZone, true, 0, 0), c)
    ensures CounterIs(AfterAddData(s, 1500, Right), Occupied, Occupied, Det([1550], 1, 1400), Det([1600, 1500], 0, 1880),
                      Trk(1, false, PeakData(LeftZone, 1400), Empty, Empty), PeopleCounterData(LeftZone, LeftZone, true, 0, 0), c)
  {
  }

  lemma LeftReading7(s: CounterState, c: int)
    requires CounterIs(s, Occupied, Occupied, Det([1550], 1, 1400), Det([1600, 1500], 0, 1880),
                       Trk(1, false, PeakData(LeftZone, 1400), Empty, Empty), PeopleCounterData(LeftZone, LeftZone, true, 0, 0), c)
    ensures CounterIs(AfterAddData(s, 1500, Left), Occupied, Occupied, Det([1550, 1500], 1, 1400), Det([1600, 1500], 0, 1880),
                      Trk(1, false, PeakData(LeftZone, 1400), Empty, Empty), PeopleCounterData(LeftZone, LeftZone, true, 0, 0), c)
  {
  }

  lemma RightReading7(s: CounterState, c: int)
    requires CounterIs(s, Occupied, Occupied, Det([1550, 1500], 1, 1400), Det([1600, 1500], 0, 1880),
                       Trk(1, false, PeakData(LeftZone, 1400), Empty, Empty), PeopleCounterData(LeftZone, LeftZone, true, 0, 0), c)
    ensures CounterIs(AfterAddData(s, 1400, Right), Occupied, Occupied, Det([1550, 1500], 1, 1400), Det([1600, 1500, 1400], 0, 1880),
                      Trk(1, false, PeakData(LeftZone, 1400), Empty, Empty), PeopleCounterData(LeftZone, LeftZone, true, 0, 0), c)
  {
  }

  lemma LeftReading8(s: CounterState, c: int)
    requires CounterIs(s, Occupied, Occupied, Det([1550, 1500], 1, 1400), Det([1600, 1500, 1400], 0, 1880),
                       Trk(1, false, PeakData(LeftZone, 1400), Empty, Empty), PeopleCounterData(LeftZone, LeftZone, true, 0, 0), c)
    ensures CounterIs(AfterAddData(s, 1400, Left), Occupied, Occupied, Det([1550, 1500, 1400], 1, 1400), Det([1600, 1500, 1400], 0, 1880),
                      Trk(1, false, PeakData(LeftZone, 1400), Empty, Empty), PeopleCounterData(LeftZone, LeftZone, true, 0, 0), c)
  {
  }

  lemma RightReading8(s: CounterState, c: int)
    requires CounterIs(s, Occupied, Occupied, Det([1550, 1500, 1400], 1, 1400), Det([1600, 1500, 1400], 0, 1880),
                       Trk(1, false, PeakData(LeftZone, 1400), Empty, Empty), PeopleCounterData(LeftZone, LeftZone, true, 0, 0), c)
    ensures CounterIs(AfterAddData(s, 1500, Right), Occupied, Occupied, Det([1550, 1500, 1400], 1, 1400), Det([1600, 1500, 1400, 1500], 0, 1880),
                      Trk(1, false, PeakData(LeftZone, 1400), Empty, Empty), PeopleCounterData(LeftZone, LeftZone, true, 0, 0), c)
  {
  }

  lemma LeftReading9(s: CounterState, c: int)
    requires CounterIs(s, Occupied, Occupied, Det([1550, 1500, 1400], 1, 1400), Det([1600, 1500, 1400, 1500], 0, 1880),
                       Trk(1, false, PeakData(LeftZone, 1400), Empty, Empty), PeopleCounterData(LeftZone, LeftZone, true, 0, 0), c)
    ensures CounterIs(AfterAddData(s, 1500, Left), Occupied, Occupied, Det([1550, 1500, 1400, 1500], 1, 1400), Det([1600, 1500, 1400, 1500], 0, 1880),
                      Trk(1, false, PeakData(LeftZone, 1400), Empty, Empty), PeopleCounterData(LeftZone, LeftZone, true, 0, 0), c)
  {
  }

  lemma RightReading9(s: CounterState, c: int)
    requires CounterIs(s, Occupied, Occupied, Det([1550, 1500, 1400, 1500], 1, 1400), Det([1600, 1500, 1400, 1500], 0, 1880),
                       Trk(1, false, PeakData(LeftZone, 1400), Empty, Empty), PeopleCounterData(LeftZone, LeftZone, true, 0, 0), c)
    ensures CounterIs(AfterAddData(s, 1600, Right), Occupied, Occupied, Det([1550, 1500, 1400, 1500], 1, 1400), Det([1600, 1500, 1400, 1500, 1600], 1, 1400),
                      Trk(0, false, Empty, Empty, PeakData(RightZone, 1400)), PeopleCounterData(LeftZone, RightZone, true, 2, 1), c)
  {
    ValleyByEndpoints([1600, 1500, 1400, 1500, 1600], 10);
    Fill(s.right, Det([1600, 1500, 1400, 1500], 0, 1880), 1600);
  }

  lemma LeftReading10(s: CounterState, c: int)
    requires CounterIs(s, Occupied, Occupied, Det([1550, 1500, 1400, 1500], 1, 1400), Det([1600, 1500, 1400, 1500, 1600], 1, 1400),
                       Trk(0, false, Empty, Empty, PeakData(RightZone, 1400)), PeopleCounterData(LeftZone, RightZone, true, 2, 1), c)
    ensures CounterIs(AfterAddData(s, 1550, Left), Occupied, Occupied, Det([1550, 1500, 1400, 1500, 1550], 2, 1400), Det([1600, 1500, 1400, 1500, 1600], 1, 1400),
                      Trk(1, false, PeakData(LeftZone, 1400), Empty, PeakData(RightZone, 1400)), PeopleCounterData(LeftZone, LeftZone, true, 2, 1), c)
  {
    ValleyByEndpoints([1550, 1500, 1400, 1500, 1550], 10);
    ValleyByEndpoints([1600, 1500, 1400, 1500, 1600], 10);
    Fill(s.left, Det([1550, 1500, 1400, 1500], 1, 1400), 1550);
  }

  lemma RightReading10(s: CounterState, c: int)
    requires CounterIs(s, Occupied, Occupied, Det([1550, 1500, 1400, 1500, 1550], 2, 1400), Det([1600, 1500, 1400, 1500, 1600], 1, 1400),
                       Trk(1, false, PeakData(LeftZone, 1400), Empty, PeakData(RightZone, 1400)), PeopleCounterData(LeftZone, LeftZone, true, 2, 1), c)
    ensures CounterIs(AfterAddData(s, 1550, Right), Occupied, Occupied, Det([1550, 1500, 1400, 1500, 1550], 2, 1400), Det([1550], 1, 1400),
                      Trk(1, false, PeakData(LeftZone, 1400), Empty, PeakData(RightZone, 1400)), PeopleCounterData(LeftZone, LeftZone, true, 2, 1), c)
  {
    ValleyByEndpoints([1550, 1500, 1400, 1500, 1550], 10);
    ValleyByEndpoints([1600, 1500, 1400, 1500, 1600], 10);
    Restart(s.right, Det([1600, 1500, 1400, 1500, 1600], 1, 1400), 1550);
  }

  lemma LeftReading11(s: CounterState, c: int)
    requires CounterIs(s, Occupied, Occupied, Det([1550, 1500, 1400, 1500, 1550], 2, 1400), Det([1550], 1, 1400),
                       Trk(1, false, PeakData(LeftZone, 1400), Empty, PeakData(RightZone, 1400)), PeopleCounterData(LeftZone, LeftZone, true, 2, 1), c)
    ensures CounterIs(AfterAddData(s, 1650, Left), Occupied, Occupied, Det([1650], 2, 1400), Det([1550], 1, 1400),
                      Trk(1, false, PeakData(LeftZone, 1400), Empty, PeakData(RightZone, 1400)), PeopleCounterData(LeftZone, LeftZone, true, 2, 1), c)
  {
    ValleyByEndpoints([1550, 1500, 1400, 1500, 1550], 10);
    Restart(s.left, Det([1550, 1500, 1400, 1500, 1550], 2, 1400), 1650);
  }

  lemma RightReading11(s: CounterState, c: int)
    requires CounterIs(s, Occupied, Occupied, Det([1650], 2, 1400), Det([1550], 1, 1400),
                       Trk(1, false, PeakData(LeftZone, 1400), Empty, PeakData(RightZone, 1400)), PeopleCounterData(LeftZone, LeftZone, true, 2, 1), c)
    ensures CounterIs(AfterAddData(s, 1500, Right), Occupied, Occupied, Det([1650], 2, 1400), Det([1550, 1500], 1, 1400),
                      Trk(1, false, PeakData(LeftZone, 1400), Empty, PeakData(RightZone, 1400)), PeopleCounterData(LeftZone, LeftZone, true, 2, 1), c)
  {
  }

  lemma LeftReading12(s: CounterState, c: int)
    requires CounterIs(s, Occupied, Occupied, Det([1650], 2, 1400), Det([1550, 1500], 1, 1400),
                       Trk(1, false, PeakData(LeftZone, 1400), Empty, PeakData(RightZone, 1400)), PeopleCounterData(LeftZone, LeftZone, true, 2, 1), c)
    ensures CounterIs(AfterAddData(s, 1660, Left), Occupied, Occupied, Det([1650, 1660], 2, 1400), Det([1550, 1500], 1, 1400),
                      Trk(1, false, PeakData(LeftZone, 1400), Empty, PeakData(RightZone, 1400)), PeopleCounterData(LeftZone, LeftZone, true, 2, 1), c)
  {
  }

  lemma RightReading12(s: CounterState, c: int)
    requires CounterIs(s, Occupied, Occupied, Det([1650, 1660], 2, 1400), Det([1550, 1500], 1, 1400),
                       Trk(1, false, PeakData(LeftZone, 1400), Empty, PeakData(RightZone, 1400)), PeopleCounterData(LeftZone, LeftZone, true, 2, 1), c)
    ensures CounterIs(AfterAddData(s, 1400, Right), Occupied, Occupied, Det([1650, 1660], 2, 1400), Det([1550, 1500, 1400], 1, 1400),
                      Trk(1, false, PeakData(LeftZone, 1400), Empty, PeakData(RightZone, 1400)), PeopleCounterData(LeftZone, LeftZone, true, 2, 1), c)
  {
  }

  lemma LeftReading13(s: CounterState, c: int)
    requires CounterIs(s, Occupied, Occupied, Det([1650, 1660], 2, 1400), Det([1550, 1500, 1400], 1, 1400),
                       Trk(1, false, PeakData(LeftZone, 1400), Empty, PeakData(RightZone, 1400)), PeopleCounterData(LeftZone, LeftZone, true, 2, 1), c)
    ensures CounterIs(AfterAddData(s, 1600, Left), Occupied, Occupied, Det([1650, 1660, 1600], 2, 1400), Det([1550, 1500, 1400], 1, 1400),
                      Trk(1, false, PeakData(LeftZone, 1400), Empty, PeakData(RightZone, 1400)), PeopleCounterData(LeftZone, LeftZone, true, 2, 1), c)
  {
  }

  lemma RightReading13(s: CounterState, c: int)
    requires CounterIs(s, Occupied, Occupied, Det([1650, 1660, 1600], 2, 1400), Det([1550, 1500, 1400], 1, 1400),
                       Trk(1, false, PeakData(LeftZone, 1400), Empty, PeakData(RightZone, 1400)), PeopleCounterData(LeftZone, LeftZone, true, 2, 1), c)
    ensures CounterIs(AfterAddData(s, 1500, Right), Occupied, Occupied, Det([1650, 1660, 1600], 2, 1400), Det([1550, 1500, 1400, 1500], 1, 1400),
                      Trk(1, false, PeakData(LeftZone, 1400), Empty, PeakData(RightZone, 1400)), PeopleCounterData(LeftZone, LeftZone, true, 2, 1), c)
  {
  }

  lemma LeftReading14(s: CounterState, c: int)
    requires CounterIs(s, Occupied, Occupied, Det([1650, 1660, 1600], 2, 1400), Det([1550, 1500, 1400, 1500], 1, 1400),
                       Trk(1, false, PeakData(LeftZone, 1400), Empty, PeakData(RightZone, 1400)), PeopleCounterData(LeftZone, LeftZone, true, 2, 1), c)
    ensures CounterIs(AfterAddData(s, 1500, Left), Occupied, Occupied, Det([1650, 1660, 1600, 1500], 2, 1400), Det([1550, 1500, 1400, 1500], 1, 1400),
                      Trk(1, false, PeakData(LeftZone, 1400), Empty, PeakData(RightZone, 1400)), PeopleCounterData(LeftZone, LeftZone, true, 2, 1), c)
  {
  }

  lemma RightReading14(s: CounterState, c: int)
    requires CounterIs(s, Occupied, Occupied, Det([1650, 1660, 1600, 1500], 2, 1400), Det([1550, 1500, 1400, 1500], 1, 1400),
                       Trk(1, false, PeakData(LeftZone, 1400), Empty, PeakData(RightZone, 1400)), PeopleCounterData(LeftZone, LeftZone, true, 2, 1), c)
    ensures CounterIs(AfterAddData(s, 1550, Right), Occupied, Occupied, Det([1650, 1660, 1600, 1500], 2, 1400), Det([1550, 1500, 1400, 1500, 1550], 2, 1400),
                      Trk(0, false, Empty, Empty, PeakData(RightZone, 1400)), PeopleCounterData(LeftZone, RightZone, true, 4, 2), c)
  {
    ValleyByEndpoints([1550, 1500, 1400, 1500, 1550], 10);
    Fill(s.right, Det([1550, 1500, 1400, 1500], 1, 1400), 1550);
  }

  lemma LeftReading15(s: CounterState, c: int)
    requires CounterIs(s, Occupied, Occupied, Det([1650, 1660, 1600, 1500], 2, 1400), Det([1550, 1500, 1400, 1500, 1550], 2, 1400),
                       Trk(0, false, Empty, Empty, PeakData(RightZone, 1400)), PeopleCounterData(LeftZone, RightZone, true, 4, 2), c)
    ensures CounterIs(AfterAddData(s, 1400, Left), Occupied, Occupied, Det([1650, 1660, 1600, 1500, 1400], 2, 1400), Det([1550, 1500, 1400, 1500, 1550], 2, 1400),
                      Trk(0, false, Empty, Empty, PeakData(RightZone, 1400)), PeopleCounterData(LeftZone, RightZone, true, 4, 2), c)
  {
    ValleyByEndpoints([1550, 1500, 1400, 1500, 1550], 10);
    ValleyByEndpoints([1650, 1660, 1600, 1500, 1400], 10);
    Fill(s.left, Det([1650, 1660, 1600, 1500], 2, 1400), 1400);
  }

  lemma RightReading15(s: CounterState, c: int)
    requires CounterIs(s, Occupied, Occupied, Det([1650, 1660, 1600, 1500, 1400], 2, 1400), Det([1550, 1500, 1400, 1500, 1550], 2, 1400),
                       Trk(0, false, Empty, Empty, PeakData(RightZone, 1400)), PeopleCounterData(LeftZone, RightZone, true, 4, 2), c)
    ensures CounterIs(AfterAddData(s, 1650, Right), Occupied, Occupied, Det([1650, 1660, 1600, 1500, 1400], 2, 1400), Det([1650], 2, 1400),
                      Trk(0, false, Empty, Empty, PeakData(RightZone, 1400)), PeopleCounterData(LeftZone, RightZone, true, 4, 2), c)
  {
    ValleyByEndpoints([1550, 1500, 1400, 1500, 1550], 10);
    ValleyByEndpoints([1650, 1660, 1600, 1500, 1400], 10);
    Restart(s.right, Det([1550, 1500, 1400, 1500, 1550], 2, 1400), 1650);
  }

  lemma LeftReading16(s: CounterState, c: int)
    requires CounterIs(s, Occupied, Occupied, Det([1650, 1660, 1600, 1500, 1400], 2, 1400), Det([1650], 2, 1400),
                       Trk(0, false, Empty, Empty, PeakData(RightZone, 1400)), PeopleCounterData(LeftZone, RightZone, true, 4, 2), c)
    ensures CounterIs(AfterAddData(s, 1500, Left), Occupied, Occupied, Det([1660, 1600, 1500, 1400, 1500], 2, 1400), Det([1650], 2, 1400),
                      Trk(0, false, Empty, Empty, PeakData(RightZone, 1400)), PeopleCounterData(LeftZone, RightZone, true, 4, 2), c)
  {
    ValleyByEndpoints([1650, 1660, 1600, 1500, 1400], 10);
    ValleyByEndpoints([1660, 1600, 1500, 1400, 1500], 10);
    Slide(s.left, Det([1650, 1660, 1600, 1500, 1400], 2, 1400), 1500);
  }

  lemma RightReading16(s: CounterState, c: int)
    requires CounterIs(s, Occupied, Occupied, Det([1660, 1600, 1500, 1400, 1500], 2, 1400), Det([1650], 2, 1400),
                       Trk(0, false, Empty, Empty, PeakData(RightZone, 1400)), PeopleCounterData(LeftZone, RightZone, true, 4, 2), c)
    ensures CounterIs(AfterAddData(s, 1660, Right), Occupied, Occupied, Det([1660, 1600, 1500, 1400, 1500], 2, 1400), Det([1650, 1660], 2, 1400),
                      Trk(0, false, Empty, Empty, PeakData(RightZone, 1400)), PeopleCounterData(LeftZone, RightZone, true, 4, 2), c)
  {
    ValleyByEndpoints([1660, 1600, 1500, 1400, 1500], 10);
  }

  lemma LeftReading17(s: CounterState, c: int)
    requires CounterIs(s, Occupied, Occupied, Det([1660, 1600, 1500, 1400, 1500], 2, 1400), Det([1650, 1660], 2, 1400),
                       Trk(0, false, Empty, Empty, PeakData(RightZone, 1400)), PeopleCounterData(LeftZone, RightZone, true, 4, 2), c)
    ensures CounterIs(AfterAddData(s, 1600, Left), Occupied, Occupied, Det([1600, 1500, 1400, 1500, 1600], 3, 1400), Det([1650, 1660], 2, 1400),
                      Trk(1, false, PeakData(LeftZone, 1400), Empty, PeakData(RightZone, 1400)), PeopleCounterData(LeftZone, LeftZone, true, 4, 2), c)
  {
    ValleyByEndpoints([1600, 1500, 1400, 1500, 1600], 10);
    ValleyByEndpoints([1660, 1600, 1500, 1400, 1500], 10);
    Slide(s.left, Det([1660, 1600, 1500, 1400, 1500], 2, 1400), 1600);
  }

  lemma RightReading17(s: CounterState, c: int)
    requires CounterIs(s, Occupied, Occupied, Det([1600, 1500, 1400, 1500, 1600], 3, 1400), Det([1650, 1660], 2, 1400),
                       Trk(1, false, PeakData(LeftZone, 1400), Empty, PeakData(RightZone, 1400)), PeopleCounterData(LeftZone, LeftZone, true, 4, 2), c)
    ensures CounterIs(AfterAddData(s, 1750, Right), Occupied, Vacant, Det([1600, 1500, 1400, 1500, 1600], 3, 1400), Det([1650, 1660], 2, 1400),
                      Trk(1, false, PeakData(LeftZone, 1400), Empty, PeakData(RightZone, 1400)), PeopleCounterData(LeftZone, LeftZone, true, 4, 2), c)
  {
    ValleyByEndpoints([1600, 1500, 1400, 1500, 1600], 10);
  }

  lemma LeftReading18(s: CounterState, c: int)
    requires CounterIs(s, Occupied, Vacant, Det([1600, 1500, 1400, 1500, 1600], 3, 1400), Det([1650, 1660], 2, 1400),
                       Trk(1, false, PeakData(LeftZone, 1400), Empty, PeakData(RightZone, 1400)), PeopleCounterData(LeftZone, LeftZone, true, 4, 2), c)
    ensures CounterIs(AfterAddData(s, 1700, Left), Occupied, Vacant, Det([1700], 3, 1400), Det([1650, 1660], 2, 1400),
                      Trk(1, false, PeakData(LeftZone, 1400), Empty, PeakData(RightZone, 1400)), PeopleCounterData(LeftZone, LeftZone, true, 4, 2), c)
  {
    ValleyByEndpoints([1600, 1500, 1400, 1500, 1600], 10);
    Restart(s.left, Det([1600, 1500, 1400, 1500, 1600], 3, 1400), 1700);
  }

  lemma RightReading18(s: CounterState, c: int)
    requires CounterIs(s, Occupied, Vacant, Det([1700], 3, 1400), Det([1650, 1660], 2, 1400),
                       Trk(1, false, PeakData(LeftZone, 1400), Empty, PeakData(RightZone, 1400)), PeopleCounterData(LeftZone, LeftZone, true, 4, 2), c)
    ensures CounterIs(AfterAddData(s, 1780, Right), Occupied, Vacant, Det([1700], 3, 1400), Det([1650, 1660], 2, 1400),
                      Trk(1, false, PeakData(LeftZone, 1400), Empty, PeakData(RightZone, 1400)), PeopleCounterData(LeftZone, LeftZone, true, 4, 2), c)
  {
  }

  lemma LeftReading19(s: CounterState, c: int)
    requires CounterIs(s, Occupied, Vacant, Det([1700], 3, 1400), Det([1650, 1660], 2, 1400),
                       Trk(1, false, PeakData(LeftZone, 1400), Empty, PeakData(RightZone, 1400)), PeopleCounterData(LeftZone, LeftZone, true, 4, 2), c)
    ensures CounterIs(AfterAddData(s, 1750, Left), Vacant, Vacant, Det([1700], 3, 1400), Det([1650, 1660], 2, 1400),
                      Trk(1, false, PeakData(LeftZone, 1400), Empty, PeakData(RightZone, 1400)), PeopleCounterData(LeftZone, LeftZone, true, 5, 1), c - 1)
  {
  }

  lemma RightReading19(s: CounterState, c: int)
    requires CounterIs(s, Vacant, Vacant, Det([1700], 3, 1400), Det([1650, 1660], 2, 1400),
                       Trk(1, false, PeakData(LeftZone, 1400), Empty, PeakData(RightZone, 1400)), PeopleCounterData(LeftZone, LeftZone, true, 5, 1), c)
    ensures CounterIs(AfterAddData(s, 1780, Right), Vacant, Vacant, Floor, Floor,
                      Clear, InitialData, c)
  {
  }

  /** The readings of the left zone, one per instant. */
  const LeftReadings := [1600, 1500, 1400, 1500, 1600, 1550, 1500, 1400, 1500, 1550, 1650, 1660, 1600, 1500, 1400, 1500, 1600, 1700, 1750, 1780, 1780]

  /** The readings of the right zone, one per instant. */
  const RightReadings := [1780, 1780, 1780, 1780, 1600, 1500, 1400, 1500, 1600, 1550, 1500, 1400, 1500, 1550, 1650, 1660, 1750, 1780, 1780, 1780, 1780]

  lemma From21(s: CounterState, c: int)
    requires CounterIs(s, Vacant, Vacant, Floor, Floor,
                       Clear, InitialData, c)
    ensures var r := Run(s, Interleave([1780] + [],
                                       [1780] + []));
      ScenarioStart(r) && r.pplCount == c
  {
    RunStep(s, 1780, 1780, [], []);
    QuietReading(s, c, 1780, Left);
    QuietReading(AfterAddData(s, 1780, Left), c, 1780, Right);
    assert Interleave([], []) == [];
  }

  lemma From20(s: CounterState, c: int)
    requires CounterIs(s, Vacant, Vacant, Floor, Floor,
                       Clear, InitialData, c)
    ensures var r := Run(s, Interleave([1780] + [1780],
                                       [1780] + [1780]));
      ScenarioStart(r) && r.pplCount == c
  {
    RunStep(s, 1780, 1780, [1780], [1780]);
    QuietReading(s, c, 1780, Left);
    QuietReading(AfterAddData(s, 1780, Left), c, 1780, Right);
    From21(Instant(s, 1780, 1780), c);
  }

  lemma From19(s: CounterState, c: int)
    requires CounterIs(s, Occupied, Vacant, Det([1700], 3, 1400), Det([1650, 1660], 2, 1400),
                       Trk(1, false, PeakData(LeftZone, 1400), Empty, PeakData(RightZone, 1400)), PeopleCounterData(LeftZone, LeftZone, true, 4, 2), c)
    ensures var r := Run(s, Interleave([1750] + [1780, 1780],
                                       [1780] + [1780, 1780]));
      ScenarioStart(r) && r.pplCount == c - 1
  {
    RunStep(s, 1750, 1780, [1780, 1780], [1780, 1780]);
    LeftReading19(s, c);
    RightReading19(AfterAddData(s, 1750, Left), c - 1);
    From20(Instant(s, 1750, 1780), c - 1);
  }

  lemma From18(s: CounterState, c: int)
    requires CounterIs(s, Occupied, Vacant, Det([1600, 1500, 1400, 1500, 1600], 3, 1400), Det([1650, 1660], 2, 1400),
                       Trk(1, false, PeakData(LeftZone, 1400), Empty, PeakData(RightZone, 1400)), PeopleCounterData(LeftZone, LeftZone, true, 4, 2), c)
    ensures var r := Run(s, Interleave([1700] + [1750, 1780, 1780],
                                       [1780] + [1780, 1780, 1780]));
      ScenarioStart(r) && r.pplCount == c - 1
  {
    RunStep(s, 1700, 1780, [1750, 1780, 1780], [1780, 1780, 1780]);
    LeftReading18(s, c);
    RightReading18(AfterAddData(s, 1700, Left), c);
    From19(Instant(s, 1700, 1780), c);
  }

  lemma From17(s: CounterState, c: int)
    requires CounterIs(s, Occupied, Occupied, Det([1660, 1600, 1500, 1400, 1500], 2, 1400), Det([1650, 1660], 2, 1400),
                       Trk(0, false, Empty, Empty, PeakData(RightZone, 1400)), PeopleCounterData(LeftZone, RightZone, true, 4, 2), c)
    ensures var r := Run(s, Interleave([1600] + [1700, 1750, 1780, 1780],
                                       [1750] + [1780, 1780, 1780, 1780]));
      ScenarioStart(r) && r.pplCount == c - 1
  {
    RunStep(s, 1600, 1750, [1700, 1750, 1780, 1780], [1780, 1780, 1780, 1780]);
    LeftReading17(s, c);
    RightReading17(AfterAddData(s, 1600, Left), c);
    From18(Instant(s, 1600, 1750), c);
  }

  lemma From16(s: CounterState, c: int)
    requires CounterIs(s, Occupied, Occupied, Det([1650, 1660, 1600, 1500, 1400], 2, 1400), Det([1650], 2, 1400),
                       Trk(0, false, Empty, Empty, PeakData(RightZone, 1400)), PeopleCounterData(LeftZone, RightZone, true, 4, 2), c)
    ensures var r := Run(s, Interleave([1500] + [1600, 1700, 1750, 1780, 1780],
                                       [1660] + [1750, 1780, 1780, 1780, 1780]));
      ScenarioStart(r) && r.pplCount == c - 1
  {
    RunStep(s, 1500, 1660, [1600, 1700, 1750, 1780, 1780], [1750, 1780, 1780, 1780, 1780]);
    LeftReading16(s, c);
    RightReading16(AfterAddData(s, 1500, Left), c);
    From17(Instant(s, 1500, 1660), c);
  }

  lemma From15(s: CounterState, c: int)
    requires CounterIs(s, Occupied, Occupied, Det([1650, 1660, 1600, 1500], 2, 1400), Det([1550, 1500, 1400, 1500, 1550], 2, 1400),
                       Trk(0, false, Empty, Empty, PeakData(RightZone, 1400)), PeopleCounterData(LeftZone, RightZone, true, 4, 2), c)
    ensures var r := Run(s, Interleave([1400] + [1500, 1600, 1700, 1750, 1780, 1780],
                                       [1650] + [1660, 1750, 1780, 1780, 1780, 1780]));
      ScenarioStart(r) && r.pplCount == c - 1
  {
    RunStep(s, 1400, 1650, [1500, 1600, 1700, 1750, 1780, 1780], [1660, 1750, 1780, 1780, 1780, 1780]);
    LeftReading15(s, c);
    RightReading15(AfterAddData(s, 1400, Left), c);
    From16(Instant(s, 1400, 1650), c);
  }

  lemma From14(s: CounterState, c: int)
    requires CounterIs(s, Occupied, Occupied, Det([1650, 1660, 1600], 2, 1400), Det([1550, 1500, 1400, 1500], 1, 1400),
                       Trk(1, false, PeakData(LeftZone, 1400), Empty, PeakData(RightZone, 1400)), PeopleCounterData(LeftZone, LeftZone, true, 2, 1), c)
    ensures var r := Run(s, Interleave([1500] + [1400, 1500, 1600, 1700, 1750, 1780, 1780],
                                       [1550] + [1650, 1660, 1750, 1780, 1780, 1780, 1780]));
      ScenarioStart(r) && r.pplCount == c - 1
  {
    RunStep(s, 1500, 1550, [1400, 1500, 1600, 1700, 1750, 1780, 1780], [1650, 1660, 1750, 1780, 1780, 1780, 1780]);
    LeftReading14(s, c);
    RightReading14(AfterAddData(s, 1500, Left), c);
    From15(Instant(s, 1500, 1550), c);
  }

  lemma From13(s: CounterState, c: int)
    requires CounterIs(s, Occupied, Occupied, Det([1650, 1660], 2, 1400), Det([1550, 1500, 1400], 1, 1400),
                       Trk(1, false, PeakData(LeftZone, 1400), Empty, PeakData(RightZone, 1400)), PeopleCounterData(LeftZone, LeftZone, true, 2, 1), c)
    ensures var r := Run(s, Interleave([1600] + [1500, 1400, 1500, 1600, 1700, 1750, 1780, 1780],
                                       [1500] + [1550, 1650, 1660, 1750, 1780, 1780, 1780, 1780]));
      ScenarioStart(r) && r.pplCount == c - 1
  {
    RunStep(s, 1600, 1500, [1500, 1400, 1500, 1600, 1700, 1750, 1780, 1780], [1550, 1650, 1660, 1750, 1780, 1780, 1780, 1780]);
    LeftReading13(s, c);
    RightReading13(AfterAddData(s, 1600, Left), c);
    From14(Instant(s, 1600, 1500), c);
  }

  lemma From12(s: CounterState, c: int)
    requires CounterIs(s, Occupied, Occupied, Det([1650], 2, 1400), Det([1550, 1500], 1, 1400),
                       Trk(1, false, PeakData(LeftZone, 1400), Empty, PeakData(RightZone, 1400)), PeopleCounterData(LeftZone, LeftZone, true, 2, 1), c)
    ensures var r := Run(s, Interleave([1660] + [1600, 1500, 1400, 1500, 1600, 1700, 1750, 1780, 1780],
                                       [1400] + [1500, 1550, 1650, 1660, 1750, 1780, 1780, 1780, 1780]));
      ScenarioStart(r) && r.pplCount == c - 1
  {
    RunStep(s, 1660, 1400, [1600, 1500, 1400, 1500, 1600, 1700, 1750, 1780, 1780], [1500, 1550, 1650, 1660, 1750, 1780, 1780, 1780, 1780]);
    LeftReading12(s, c);
    RightReading12(AfterAddData(s, 1660, Left), c);
    From13(Instant(s, 1660, 1400), c);
  }

  lemma From11(s: CounterState, c: int)
    requires CounterIs(s, Occupied, Occupied, Det([1550, 1500, 1400, 1500, 1550], 2, 1400), Det([1550], 1, 1400),
                       Trk(1, false, PeakData(LeftZone, 1400), Empty, PeakData(RightZone, 1400)), PeopleCounterData(LeftZone, LeftZone, true, 2, 1), c)
    ensures var r := Run(s, Interleave([1650] + [1660, 1600, 1500, 1400, 1500, 1600, 1700, 1750, 1780, 1780],
                                       [1500] + [1400, 1500, 1550, 1650, 1660, 1750, 1780, 1780, 1780, 1780]));
      ScenarioStart(r) && r.pplCount == c - 1
  {
    RunStep(s, 1650, 1500, [1660, 1600, 1500, 1400, 1500, 1600, 1700, 1750, 1780, 1780], [1400, 1500, 1550, 1650, 1660, 1750, 1780, 1780, 1780, 1780]);
    LeftReading11(s, c);
    RightReading11(AfterAddData(s, 1650, Left), c);
    From12(Instant(s, 1650, 1500), c);
  }

  lemma From10(s: CounterState, c: int)
    requires CounterIs(s, Occupied, Occupied, Det([1550, 1500, 1400, 1500], 1, 1400), Det([1600, 1500, 1400, 1500, 1600], 1, 1400),
                       Trk(0, false, Empty, Empty, PeakData(RightZone, 1400)), PeopleCounterData(LeftZone, RightZone, true, 2, 1), c)
    ensures var r := Run(s, Interleave([1550] + [1650, 1660, 1600, 1500, 1400, 1500, 1600, 1700, 1750, 1780, 1780],
                                       [1550] + [1500, 1400, 1500, 1550, 1650, 1660, 1750, 1780, 1780, 1780, 1780]));
      ScenarioStart(r) && r.pplCount == c - 1
  {
    RunStep(s, 1550, 1550, [1650, 1660, 1600, 1500, 1400, 1500, 1600, 1700, 1750, 1780, 1780], [1500, 1400, 1500, 1550, 1650, 1660, 1750, 1780, 1780, 1780, 1780]);
    LeftReading10(s, c);
    RightReading10(AfterAddData(s, 1550, Left), c);
    From11(Instant(s, 1550, 1550), c);
  }

  lemma From9(s: CounterState, c: int)
    requires CounterIs(s, Occupied, Occupied, Det([1550, 1500, 1400], 1, 1400), Det([1600, 1500, 1400, 1500], 0, 1880),
                       Trk(1, false, PeakData(LeftZone, 1400), Empty, Empty), PeopleCounterData(LeftZone, LeftZone, true, 0, 0), c)
    ensures var r := Run(s, Interleave([1500] + [1550, 1650, 1660, 1600, 1500, 1400, 1500, 1600, 1700, 1750, 1780, 1780],
                                       [1600] + [1550, 1500, 1400, 1500, 1550, 1650, 1660, 1750, 1780, 1780, 1780, 1780]));
      ScenarioStart(r) && r.pplCount == c - 1
  {
    RunStep(s, 1500, 1600, [1550, 1650, 1660, 1600, 1500, 1400, 1500, 1600, 1700, 1750, 1780, 1780], [1550, 1500, 1400, 1500, 1550, 1650, 1660, 1750, 1780, 1780, 1780, 1780]);
    LeftReading9(s, c);
    RightReading9(AfterAddData(s, 1500, Left), c);
    From10(Instant(s, 1500, 1600), c);
  }

  lemma From8(s: CounterState, c: int)
    requires CounterIs(s, Occupied, Occupied, Det([1550, 1500], 1, 1400), Det([1600, 1500, 1400], 0, 1880),
                       Trk(1, false, PeakData(LeftZone, 1400), Empty, Empty), PeopleCounterData(LeftZone, LeftZone, true, 0, 0), c)
    ensures var r := Run(s, Interleave([1400] + [1500, 1550, 1650, 1660, 1600, 1500, 1400, 1500, 1600, 1700, 1750, 1780, 1780],
                                       [1500] + [1600, 1550, 1500, 1400, 1500, 1550, 1650, 1660, 1750, 1780, 1780, 1780, 1780]));
      ScenarioStart(r) && r.pplCount == c - 1
  {
    RunStep(s, 1400, 1500, [1500, 1550, 1650, 1660, 1600, 1500, 1400, 1500, 1600, 1700, 1750, 1780, 1780], [1600, 1550, 1500, 1400, 1500, 1550, 1650, 1660, 1750, 1780, 1780, 1780, 1780]);
    LeftReading8(s, c);
    RightReading8(AfterAddData(s, 1400, Left), c);
    From9(Instant(s, 1400, 1500), c);
  }

  lemma From7(s: CounterState, c: int)
    requires CounterIs(s, Occupied, Occupied, Det([1550], 1, 1400), Det([1600, 1500], 0, 1880),
                       Trk(1, false, PeakData(LeftZone, 1400), Empty, Empty), PeopleCounterData(LeftZone, LeftZone, true, 0, 0), c)
    ensures var r := Run(s, Interleave([1500] + [1400, 1500, 1550, 1650, 1660, 1600, 1500, 1400, 1500, 1600, 1700, 1750, 1780, 1780],
                                       [1400] + [1500, 1600, 1550, 1500, 1400, 1500, 1550, 1650, 1660, 1750, 1780, 1780, 1780, 1780]));
      ScenarioStart(r) && r.pplCount == c - 1
  {
    RunStep(s, 1500, 1400, [1400, 1500, 1550, 1650, 1660, 1600, 1500, 1400, 1500, 1600, 1700, 1750, 1780, 1780], [1500, 1600, 1550, 1500, 1400, 1500, 1550, 1650, 1660, 1750, 1780, 1780, 1780, 1780]);
    LeftReading7(s, c);
    RightReading7(AfterAddData(s, 1500, Left), c);
    From8(Instant(s, 1500, 1400), c);
  }

  lemma From6(s: CounterState, c: int)
    requires CounterIs(s, Occupied, Occupied, Det([1600, 1500, 1400, 1500, 1600], 1, 1400), Det([1600], 0, 1880),
                       Trk(1, false, PeakData(LeftZone, 1400), Empty, Empty), PeopleCounterData(LeftZone, LeftZone, true, 0, 0), c)
    ensures var r := Run(s, Interleave([1550] + [1500, 1400, 1500, 1550, 1650, 1660, 1600, 1500, 1400, 1500, 1600, 1700, 1750, 1780, 1780],
                                       [1500] + [1400, 1500, 1600, 1550, 1500, 1400, 1500, 1550, 1650, 1660, 1750, 1780, 1780, 1780, 1780]));
      ScenarioStart(r) && r.pplCount == c - 1
  {
    RunStep(s, 1550, 1500, [1500, 1400, 1500, 1550, 1650, 1660, 1600, 1500, 1400, 1500, 1600, 1700, 1750, 1780, 1780], [1400, 1500, 1600, 1550, 1500, 1400, 1500, 1550, 1650, 1660, 1750, 1780, 1780, 1780, 1780]);
    LeftReading6(s, c);
    RightReading6(AfterAddData(s, 1550, Left), c);
    From7(Instant(s, 1550, 1500), c);
  }

  lemma From5(s: CounterState, c: int)
    requires CounterIs(s, Occupied, Vacant, Det([1600, 1500, 1400, 1500], 0, 1880), Floor,
                       Clear, InitialData, c)
    ensures var r := Run(s, Interleave([1600] + [1550, 1500, 1400, 1500, 1550, 1650, 1660, 1600, 1500, 1400, 1500, 1600, 1700, 1750, 1780, 1780],
                                       [1600] + [1500, 1400, 1500, 1600, 1550, 1500, 1400, 1500, 1550, 1650, 1660, 1750, 1780, 1780, 1780, 1780]));
      ScenarioStart(r) && r.pplCount == c - 1
  {
    RunStep(s, 1600, 1600, [1550, 1500, 1400, 1500, 1550, 1650, 1660, 1600, 1500, 1400, 1500, 1600, 1700, 1750, 1780, 1780], [1500, 1400, 1500, 1600, 1550, 1500, 1400, 1500, 1550, 1650, 1660, 1750, 1780, 1780, 1780, 1780]);
    LeftReading5(s, c);
    RightReading5(AfterAddData(s, 1600, Left), c);
    From6(Instant(s, 1600, 1600), c);
  }

  lemma From4(s: CounterState, c: int)
    requires CounterIs(s, Occupied, Vacant, Det([1600, 1500, 1400], 0, 1880), Floor,
                       Clear, InitialData, c)
    ensures var r := Run(s, Interleave([1500] + [1600, 1550, 1500, 1400, 1500, 1550, 1650, 1660, 1600, 1500, 1400, 1500, 1600, 1700, 1750, 1780, 1780],
                                       [1780] + [1600, 1500, 1400, 1500, 1600, 1550, 1500, 1400, 1500, 1550, 1650, 1660, 1750, 1780, 1780, 1780, 1780]));
      ScenarioStart(r) && r.pplCount == c - 1
  {
    RunStep(s, 1500, 1780, [1600, 1550, 1500, 1400, 1500, 1550, 1650, 1660, 1600, 1500, 1400, 1500, 1600, 1700, 1750, 1780, 1780], [1600, 1500, 1400, 1500, 1600, 1550, 1500, 1400, 1500, 1550, 1650, 1660, 1750, 1780, 1780, 1780, 1780]);
    TurnBackScenario.LeftReading4(s, c);
    RightReading4(AfterAddData(s, 1500, Left), c);
    From5(Instant(s, 1500, 1780), c);
  }

  lemma From3(s: CounterState, c: int)
    requires CounterIs(s, Occupied, Vacant, Det([1600, 1500], 0, 1880), Floor,
                       Clear, InitialData, c)
    ensures var r := Run(s, Interleave([1400] + [1500, 1600, 1550, 1500, 1400, 1500, 1550, 1650, 1660, 1600, 1500, 1400, 1500, 1600, 1700, 1750, 1780, 1780],
                                       [1780] + [1780, 1600, 1500, 1400, 1500, 1600, 1550, 1500, 1400, 1500, 1550, 1650, 1660, 1750, 1780, 1780, 1780, 1780]));
      ScenarioStart(r) && r.pplCount == c - 1
  {
    RunStep(s, 1400, 1780, [1500, 1600, 1550, 1500, 1400, 1500, 1550, 1650, 1660, 1600, 1500, 1400, 1500, 1600, 1700, 1750, 1780, 1780], [1780, 1600, 1500, 1400, 1500, 1600, 1550, 1500, 1400, 1500, 1550, 1650, 1660, 1750, 1780, 1780, 1780, 1780]);
    TurnBackScenario.LeftReading3(s, c);
    TurnBackScenario.RightReading3(AfterAddData(s, 1400, Left), c);
    From4(Instant(s, 1400, 1780), c);
  }

  lemma From2(s: CounterState, c: int)
    requires CounterIs(s, Occupied, Vacant, Det([1600], 0, 1880), Floor,
                       Clear, InitialData, c)
    ensures var r := Run(s, Interleave([1500] + [1400, 1500, 1600, 1550, 1500, 1400, 1500, 1550, 1650, 1660, 1600, 1500, 1400, 1500, 1600, 1700, 1750, 1780, 1780],
                                       [1780] + [1780, 1780, 1600, 1500, 1400, 1500, 1600, 1550, 1500, 1400, 1500, 1550, 1650, 1660, 1750, 1780, 1780, 1780, 1780]));
      ScenarioStart(r) && r.pplCount == c - 1
  {
    RunStep(s, 1500, 1780, [1400, 1500, 1600, 1550, 1500, 1400, 1500, 1550, 1650, 1660, 1600, 1500, 1400, 1500, 1600, 1700, 1750, 1780, 1780], [1780, 1780, 1600, 1500, 1400, 1500, 1600, 1550, 1500, 1400, 1500, 1550, 1650, 1660, 1750, 1780, 1780, 1780, 1780]);
    OpeningLeftReading(s, c);
    TurnBackScenario.RightReading2(AfterAddData(s, 1500, Left), c);
    From3(Instant(s, 1500, 1780), c);
  }

  lemma LeftReadingsSplit()
    ensures LeftReadings == [1600] + ([1500] + [1400, 1500, 1600, 1550, 1500, 1400, 1500, 1550, 1650, 1660, 1600, 1500, 1400, 1500, 1600, 1700, 1750, 1780, 1780])
  {
  }

  lemma RightReadingsSplit()
    ensures RightReadings == [1780] + ([1780] + [1780, 1780, 1600, 1500, 1400, 1500, 1600, 1550, 1500, 1400, 1500, 1550, 1650, 1660, 1750, 1780, 1780, 1780, 1780])
  {
  }

  /** Test case 6, a collision at the door: the count goes down by one. */
  lemma Collision(s: CounterState)
    requires ScenarioStart(s)
    ensures var r := Run(s, Interleave(LeftReadings, RightReadings));
      ScenarioStart(r) && r.pplCount == s.pplCount - 1
  {
    LeftReadingsSplit();
    RightReadingsSplit();
    RunStep(s, 1600, 1780, [1500] + [1400, 1500, 1600, 1550, 1500, 1400, 1500, 1550, 1650, 1660, 1600, 1500, 1400, 1500, 1600, 1700, 1750, 1780, 1780], [1780] + [1780, 1780, 1600, 1500, 1400, 1500, 1600, 1550, 1500, 1400, 1500, 1550, 1650, 1660, 1750, 1780, 1780, 1780, 1780]);
    OpeningInstant(s);
    From2(Instant(s, 1600, 1780), s.pplCount);
  }

}
