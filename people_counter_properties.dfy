// Properties of the people counter's value model: how one sample moves the
// zone statuses, the path tracker and the count; that an episode starts
// afresh whatever came before it; and that the counter treats the two zones
// alike, so a mirrored sample stream gives the negated count.

module PeopleCounterProperties {
  import opened CArith
  import opened PeakDetection
  import opened PeakDetectorProperties
  import opened PeopleCounting

  /** An accepted sample decides the zone's status on its own: occupied
      exactly when it is closer than the vacancy threshold, from either
      previous status. The other zone's status does not move. */
  lemma StatusFollowsSample(s: CounterState, distance: int, zone: Zone)
    requires s.Valid() && s.ceilingThreshold <= distance <= s.floorThreshold
    ensures var r := AfterAddData(s, distance, zone);
      && Status(r, zone) == (if distance < s.zoneVacancyThreshold then Occupied else Vacant)
      && Status(r, Other(zone)) == Status(s, Other(zone))
  {
    var a := AfterStatusUpdate(s, distance, zone);
    var b := AfterPeakUpdate(a, distance, zone);
    var u := AfterUpdatePeopleCounterData(b, zone);
    assert u.leftStatus == a.leftStatus && u.rightStatus == a.rightStatus;
  }

  /** The path tracker between samples: when a sample finds it holding at
      most one peak and not full, it leaves it so. */
  lemma AddDataKeepsTrackerIdle(s: CounterState, distance: int, zone: Zone)
    requires s.Valid() && Idle(s.tracker)
    ensures Idle(AfterAddData(s, distance, zone).tracker)
  {
    if s.ceilingThreshold <= distance <= s.floorThreshold {
      var a := AfterStatusUpdate(s, distance, zone);
      assert Idle(a.tracker) by {
        var saved := AfterSavePreviousStatus(s, zone);
        assert saved.tracker == s.tracker;
      }
      var b := AfterPeakUpdate(a, distance, zone);
      assert b.tracker.bufferFull <==> b.tracker.bufferCount == 2;
      var u := AfterUpdatePeopleCounterData(b, zone);
      assert Idle(u.tracker);
    }
  }

  /** A sample that finds both zones vacant never changes the count: it
      starts a new episode, so there is nothing yet to add. */
  lemma VacantStartKeepsCount(s: CounterState, distance: int, zone: Zone)
    requires s.Valid() && BothVacant(s)
    ensures AfterAddData(s, distance, zone).pplCount == s.pplCount
  {
    if s.ceilingThreshold <= distance <= s.floorThreshold {
      var a := AfterStatusUpdate(s, distance, zone);
      var saved := AfterSavePreviousStatus(s, zone);
      var c := AfterClearData(saved);
      assert a == (if distance < c.zoneVacancyThreshold then AfterSetZoneStatus(c, zone, Occupied) else c);
      if distance >= s.zoneVacancyThreshold {
        assert a == c && BothVacant(a);
        var b := AfterPeakUpdate(a, distance, zone);
        assert b == a;
        assert !PeakPresent(Detector(b, zone));
        var u := AfterUpdatePeopleCounterData(b, zone);
        assert !u.data.zoneOverlap && u.tracker.window[0].zone == NoZone && !u.tracker.bufferFull;
      }
    }
  }

  /** The path tracker between samples: a first peak takes slot 0; a peak
      opposite the one held takes slot 1, fills the buffer and becomes the
      pre-window; any other peak replaces the one held, which moves to the
      pre-window. */
  lemma PathTrackerSteps(t: PathTracker, zone: Zone, lastPeak: int)
    requires Idle(t)
    ensures var r := UpdatedPathTracker(t, zone, lastPeak); var p := PeakData(ZoneEvent(zone), lastPeak);
      && (t.bufferCount == 0 ==>
            r.bufferCount == 1 && !r.bufferFull && r.window[0] == p && r.preWindow == t.preWindow)
      && (t.bufferCount == 1 && Opposite(t.window[0].zone, zone) ==>
            r.bufferCount == 2 && r.bufferFull && r.window == [t.window[0], p] && r.preWindow == p)
      && (t.bufferCount == 1 && !Opposite(t.window[0].zone, zone) ==>
            r.bufferCount == 1 && !r.bufferFull && r.window == [p, t.window[1]] && r.preWindow == t.window[0])
  {
  }

  /** What one `processPathTracker` adds to the episode: a pair of peaks in
      opposite zones at matching distances is a crossing, towards the second
      zone (+1 from left to right, -1 from right to left), and counts two
      peaks; a pair at distances further apart than the tolerance counts one
      peak and no crossing; a lone peak after an opposite pre-window counts
      as a crossing back (-1 for a left peak, +1 for a right one) and one
      peak; nothing else changes the episode. */
  lemma PathContribution(t: PathTracker, d: PeopleCounterData, tol: UInt8)
    ensures var r := ProcessedPathTracker(t, d, tol); var w0, w1 := t.window[0], t.window[1];
      && (w0.zone != NoZone && w1.zone != NoZone && w0.zone != w1.zone ==>
            if Abs(w0.distance - w1.distance) <= tol as int then
              r.marginalChange == d.marginalChange + (if w0.zone == LeftZone then 1 else -1)
              && r.numPeaks == U8Add(d.numPeaks, 2)
            else
              r.marginalChange == d.marginalChange && r.numPeaks == U8Add(d.numPeaks, 1))
      && (w0.zone != NoZone && w1.zone == NoZone && t.preWindow.zone != NoZone && t.preWindow.zone != w0.zone ==>
            r.marginalChange == d.marginalChange + (if w0.zone == LeftZone then -1 else 1)
            && r.numPeaks == U8Add(d.numPeaks, 1))
      && ((|| w0.zone == NoZone
           || w1.zone == w0.zone
           || (w1.zone == NoZone && (t.preWindow.zone == NoZone || t.preWindow.zone == w0.zone))) ==> r == d)
  {
  }

  /** A sample that finds both zones vacant begins a new episode: before it
      reaches a detector, the path slots and the pre-window are empty, the
      episode data are at their initial values and both detectors are
      reset. */
  lemma EpisodeStartResets(s: CounterState, distance: int, zone: Zone)
    requires s.Valid() && BothVacant(s)
    ensures var a := AfterStatusUpdate(s, distance, zone);
      && a.tracker.window[0].zone == NoZone && a.tracker.window[1].zone == NoZone
      && a.tracker.preWindow.zone == NoZone && a.tracker.bufferCount == 0
      && a.data == InitialData
      && a.left == AfterReset(s.left) && a.right == AfterReset(s.right)
  {
    NewEpisodeStatus(s, distance, zone);
  }

  /** An episode is marked as one in which both zones were occupied only
      by a sample that leaves both occupied: one closer than the vacancy
      threshold while the other zone is occupied. A sample that starts a
      new episode forgets the mark of the one before. */
  lemma OverlapNeedsBothOccupied(s: CounterState, distance: int, zone: Zone)
    requires s.Valid()
    requires !s.data.zoneOverlap || (BothVacant(s) && s.ceilingThreshold <= distance <= s.floorThreshold)
    requires Status(s, Other(zone)) == Vacant || distance >= s.zoneVacancyThreshold
    ensures !AfterAddData(s, distance, zone).data.zoneOverlap
  {
    if s.ceilingThreshold <= distance <= s.floorThreshold {
      var a := AfterStatusUpdate(s, distance, zone);
      assert !a.data.zoneOverlap by {
        var saved := AfterSavePreviousStatus(s, zone);
        if Status(saved, zone) == Vacant && BothVacant(saved) {
          assert AfterClearData(saved).data == InitialData;
        }
      }
      assert !(a.leftStatus == Occupied && a.rightStatus == Occupied);
      var b := AfterPeakUpdate(a, distance, zone);
      var u := AfterUpdatePeopleCounterData(b, zone);
      assert !u.data.zoneOverlap;
    }
  }

  /** So a sample that leaves no episode marked never moves the count. */
  lemma UnmarkedSampleKeepsCount(s: CounterState, distance: int, zone: Zone)
    requires s.Valid()
    requires !s.data.zoneOverlap || (BothVacant(s) && s.ceilingThreshold <= distance <= s.floorThreshold)
    requires Status(s, Other(zone)) == Vacant || distance >= s.zoneVacancyThreshold
    ensures var r := AfterAddData(s, distance, zone); !r.data.zoneOverlap && r.pplCount == s.pplCount
  {
    OverlapNeedsBothOccupied(s, distance, zone);
  }

  /** `clearData` is idempotent. */
  lemma ClearDataIdempotent(s: CounterState)
    requires s.Valid()
    ensures AfterClearData(AfterClearData(s)) == AfterClearData(s)
  {
    ResetIdempotent(s.left);
    ResetIdempotent(s.right);
    var c := AfterClearData(s);
    assert InitializedPathTracker(c.tracker).window == c.tracker.window;
  }

  /** An episode starts afresh: a sample that finds both zones vacant acts
      exactly as it would after `clearData`, so nothing of the previous
      episode's path, peaks or detector contents reaches the new one. */
  lemma EpisodeStartForgetsHistory(s: CounterState, distance: int, zone: Zone)
    requires s.Valid() && BothVacant(s) && s.ceilingThreshold <= distance <= s.floorThreshold
    ensures AfterAddData(AfterClearData(s), distance, zone) == AfterAddData(s, distance, zone)
  {
    var c := AfterClearData(s);
    assert AfterStatusUpdate(c, distance, zone) == AfterStatusUpdate(s, distance, zone) by {
      ClearDataIdempotent(AfterSavePreviousStatus(s, zone));
      assert AfterClearData(AfterSavePreviousStatus(c, zone)) == AfterClearData(AfterClearData(AfterSavePreviousStatus(s, zone)));
    }
  }

  /** The count moves only when a sample closes an episode in which both
      zones were occupied at once, and then by the episode's net
      crossings, negated when the first and last peaks fell in the same
      zone and their number is odd. */
  lemma CountChangeIsSignedNet(s: CounterState, distance: int, zone: Zone)
    requires s.Valid()
    ensures var r := AfterAddData(s, distance, zone);
      var closes := s.ceilingThreshold <= distance <= s.floorThreshold && BothVacant(r) && r.data.zoneOverlap;
      var cameBack := r.data.firstPeakZone == r.data.lastPeakZone && r.data.numPeaks % 2 == 1;
      r.pplCount - s.pplCount == (if !closes then 0 else if cameBack then -r.data.marginalChange else r.data.marginalChange)
  {
  }

  /** The episode's first-peak zone against the two detectors, which are
      reset together with it: no zone exactly while neither detector has
      reported a peak, and otherwise a zone whose detector has. */
  predicate FirstPeakNoted(s: CounterState)
  {
    && s.left.numberOfPeaks >= 0 && s.right.numberOfPeaks >= 0
    && (s.data.firstPeakZone == NoZone <==> s.left.numberOfPeaks == 0 && s.right.numberOfPeaks == 0)
    && (s.data.firstPeakZone == LeftZone ==> s.left.numberOfPeaks >= 1)
    && (s.data.firstPeakZone == RightZone ==> s.right.numberOfPeaks >= 1)
  }

  /** A new counter has noted no first peak. */
  lemma ConstructedNotesFirstPeak(floorThresh: int, floorToCeiling: int, vacancyThresholdPer: UInt8)
    ensures FirstPeakNoted(CounterConstructed(floorThresh, floorToCeiling, vacancyThresholdPer))
    ensures CounterConstructed(floorThresh, floorToCeiling, vacancyThresholdPer).data.firstPeakZone == NoZone
  {
  }

  /** Every sample keeps the first-peak zone in step with the detectors:
      the zone whose detector reports the episode's first peak is noted
      then, and a later peak in either zone leaves it alone. */
  lemma AddDataNotesFirstPeak(s: CounterState, distance: int, zone: Zone)
    requires s.Valid() && FirstPeakNoted(s)
    ensures FirstPeakNoted(AfterAddData(s, distance, zone))
  {
    if s.ceilingThreshold <= distance <= s.floorThreshold {
      var a := AfterStatusUpdate(s, distance, zone);
      assert FirstPeakNoted(a) by {
        var saved := AfterSavePreviousStatus(s, zone);
        if Status(saved, zone) == Vacant && BothVacant(saved) {
          assert AfterClearData(saved).data == InitialData;
        }
      }
      var b := AfterPeakUpdate(a, distance, zone);
      NotingFirstPeak(a, b, zone);
      var u := AfterUpdatePeopleCounterData(b, zone);
      assert BothVacant(u) ==> AfterProcessPeopleCounterData(u).data.firstPeakZone == u.data.firstPeakZone;
    }
  }

  /** The peak step feeds at most one peak to the calling zone's detector,
      and `updatePeopleCounterData` then notes it if it is the first. */
  lemma NotingFirstPeak(a: CounterState, b: CounterState, zone: Zone)
    requires a.Valid() && FirstPeakNoted(a)
    requires b.Valid() && b.data == a.data && Detector(b, Other(zone)) == Detector(a, Other(zone))
    requires Detector(b, zone).numberOfPeaks == Detector(a, zone).numberOfPeaks
          || Detector(b, zone).numberOfPeaks == Detector(a, zone).numberOfPeaks + 1
    ensures FirstPeakNoted(AfterUpdatePeopleCounterData(b, zone))
  {
    var d := NotedPeaks(b, zone);
    assert AfterUpdatePeopleCounterData(b, zone).data.firstPeakZone == d.firstPeakZone;
  }

  /** Which samples a zone's detector takes: an accepted sample that
      leaves the zone occupied, fed to a detector that is first reset when
      the sample finds both zones vacant. The other zone's detector is
      only ever reset. */
  lemma AddDataFeedsOccupiedZone(s: CounterState, distance: int, zone: Zone)
    requires s.Valid() && s.ceilingThreshold <= distance <= s.floorThreshold
    ensures var r := AfterAddData(s, distance, zone);
      var start := if BothVacant(s) then AfterReset(Detector(s, zone)) else Detector(s, zone);
      && Detector(r, zone) == (if distance < s.zoneVacancyThreshold then AfterAddDistance(start, distance) else start)
      && Detector(r, Other(zone)) == (if BothVacant(s) then AfterReset(Detector(s, Other(zone))) else Detector(s, Other(zone)))
  {
    var a := AfterStatusUpdate(s, distance, zone);
    assert Detector(a, zone) == (if BothVacant(s) then AfterReset(Detector(s, zone)) else Detector(s, zone))
        && Detector(a, Other(zone)) == (if BothVacant(s) then AfterReset(Detector(s, Other(zone))) else Detector(s, Other(zone))) by {
      var saved := AfterSavePreviousStatus(s, zone);
      assert Detector(saved, zone) == Detector(s, zone) && Detector(saved, Other(zone)) == Detector(s, Other(zone));
    }
    var b := AfterPeakUpdate(a, distance, zone);
    var u := AfterUpdatePeopleCounterData(b, zone);
    assert u.left == b.left && u.right == b.right;
  }

  /** Mirroring swaps the two zones. */
  function MirrorEvent(e: EventZone): EventZone
  {
    if e == LeftZone then RightZone else if e == RightZone then LeftZone else NoZone
  }

  function MirrorPeak(p: PeakData): PeakData
  {
    p.(zone := MirrorEvent(p.zone))
  }

  function MirrorTracker(t: PathTracker): (m: PathTracker)
    ensures m.bufferCount == t.bufferCount && m.bufferFull == t.bufferFull
  {
    t.(window := [MirrorPeak(t.window[0]), MirrorPeak(t.window[1])], preWindow := MirrorPeak(t.preWindow))
  }

  /** The episode data of the mirrored stream: zones swapped, net crossings
      negated. */
  function MirrorData(d: PeopleCounterData): PeopleCounterData
  {
    PeopleCounterData(MirrorEvent(d.firstPeakZone), MirrorEvent(d.lastPeakZone), d.zoneOverlap,
                      d.numPeaks, -1 * d.marginalChange)
  }

  /** The counter seen in a mirror: the zones, their detectors and statuses
      swapped, and every crossing counted the other way. */
  function Mirror(s: CounterState): (m: CounterState)
    ensures SameSettings(m, s) && (m.Valid() <==> s.Valid())
  {
    CounterState(s.right, s.left, MirrorTracker(s.tracker), MirrorData(s.data),
                 s.zoneVacancyThreshold, s.ceilingThreshold, s.floorThreshold,
                 s.peakVariationTolerance, s.peakDetectionFloor, -s.pplCount,
                 s.rightStatus, s.previousRightStatus, s.leftStatus, s.previousLeftStatus)
  }

  lemma MirrorInvolution(s: CounterState)
    ensures Mirror(Mirror(s)) == s
  {
    assert MirrorTracker(MirrorTracker(s.tracker)).window == s.tracker.window;
  }

  lemma MirrorProcessedPathTracker(t: PathTracker, d: PeopleCounterData, tol: UInt8)
    ensures ProcessedPathTracker(MirrorTracker(t), MirrorData(d), tol) == MirrorData(ProcessedPathTracker(t, d, tol))
  {
  }

  lemma MirrorUpdatedPathTracker(t: PathTracker, zone: Zone, lastPeak: int)
    ensures UpdatedPathTracker(MirrorTracker(t), Other(zone), lastPeak) == MirrorTracker(UpdatedPathTracker(t, zone, lastPeak))
  {
    var r := UpdatedPathTracker(t, zone, lastPeak);
    assert UpdatedPathTracker(MirrorTracker(t), Other(zone), lastPeak).window == MirrorTracker(r).window;
  }

  lemma MirrorInitializedPathTracker(t: PathTracker)
    ensures InitializedPathTracker(MirrorTracker(t)) == MirrorTracker(InitializedPathTracker(t))
  {
    assert InitializedPathTracker(MirrorTracker(t)).window == MirrorTracker(InitializedPathTracker(t)).window;
  }

  /** Two counter states with equal fields are equal. */
  lemma SameState(a: CounterState, b: CounterState)
    requires a.left == b.left && a.right == b.right && a.tracker == b.tracker && a.data == b.data
    requires a.pplCount == b.pplCount && SameSettings(a, b)
    requires a.leftStatus == b.leftStatus && a.rightStatus == b.rightStatus
    requires a.previousLeftStatus == b.previousLeftStatus && a.previousRightStatus == b.previousRightStatus
    ensures a == b
  {
  }

  lemma MirrorClearData(s: CounterState)
    requires s.Valid()
    ensures AfterClearData(Mirror(s)) == Mirror(AfterClearData(s))
  {
    ClearedMirror(s);
    MirroredClear(s);
    MirrorInitializedPathTracker(s.tracker);
  }

  lemma ClearedMirror(s: CounterState)
    requires s.Valid()
    ensures AfterClearData(Mirror(s)) == Mirror(s).(tracker := InitializedPathTracker(MirrorTracker(s.tracker)),
                                                   data := InitialData, left := AfterReset(s.right), right := AfterReset(s.left))
  {
  }

  lemma MirroredClear(s: CounterState)
    requires s.Valid()
    ensures Mirror(AfterClearData(s)) == Mirror(s).(tracker := MirrorTracker(InitializedPathTracker(s.tracker)),
                                                   data := InitialData, left := AfterReset(s.right), right := AfterReset(s.left))
  {
  }

  lemma MirrorSavePreviousStatus(s: CounterState, zone: Zone)
    ensures AfterSavePreviousStatus(Mirror(s), Other(zone)) == Mirror(AfterSavePreviousStatus(s, zone))
  {
  }

  lemma MirrorSetZoneStatus(s: CounterState, zone: Zone, status: ZoneStatus)
    ensures AfterSetZoneStatus(Mirror(s), Other(zone), status) == Mirror(AfterSetZoneStatus(s, zone, status))
  {
  }

  lemma MirrorStatusUpdate(s: CounterState, distance: int, zone: Zone)
    requires s.Valid()
    ensures AfterStatusUpdate(Mirror(s), distance, Other(zone)) == Mirror(AfterStatusUpdate(s, distance, zone))
  {
    var saved := AfterSavePreviousStatus(s, zone);
    MirrorSavePreviousStatus(s, zone);
    if Status(saved, zone) == Vacant {
      MirrorStatusUpdateFromVacant(s, distance, zone);
    } else {
      MirrorSetZoneStatus(saved, zone, Vacant);
    }
  }

  lemma MirrorStatusUpdateFromVacant(s: CounterState, distance: int, zone: Zone)
    requires s.Valid() && Status(s, zone) == Vacant
    ensures AfterStatusUpdate(Mirror(s), distance, Other(zone)) == Mirror(AfterStatusUpdate(s, distance, zone))
  {
    var saved := AfterSavePreviousStatus(s, zone);
    MirrorSavePreviousStatus(s, zone);
    if BothVacant(s) {
      MirrorStatusUpdateNewEpisode(s, distance, zone);
    } else {
      assert !BothVacant(Mirror(saved));
      MirrorSetZoneStatus(saved, zone, Occupied);
    }
  }

  lemma MirrorStatusUpdateNewEpisode(s: CounterState, distance: int, zone: Zone)
    requires s.Valid() && BothVacant(s)
    ensures AfterStatusUpdate(Mirror(s), distance, Other(zone)) == Mirror(AfterStatusUpdate(s, distance, zone))
  {
    var saved := AfterSavePreviousStatus(s, zone);
    MirrorSavePreviousStatus(s, zone);
    NewEpisodeStatus(s, distance, zone);
    NewEpisodeStatus(Mirror(s), distance, Other(zone));
    MirrorClearData(saved);
    MirrorSetZoneStatus(AfterClearData(saved), zone, Occupied);
  }

  /** The status step of a sample that finds both zones vacant. */
  lemma NewEpisodeStatus(s: CounterState, distance: int, zone: Zone)
    requires s.Valid() && BothVacant(s)
    ensures var c := AfterClearData(AfterSavePreviousStatus(s, zone));
      AfterStatusUpdate(s, distance, zone) ==
        if distance < s.zoneVacancyThreshold then AfterSetZoneStatus(c, zone, Occupied) else c
  {
  }

  lemma MirrorPeakUpdate(s: CounterState, distance: int, zone: Zone)
    requires s.Valid()
    ensures AfterPeakUpdate(Mirror(s), distance, Other(zone)) == Mirror(AfterPeakUpdate(s, distance, zone))
  {
    if Status(s, zone) == Occupied {
      var fed := AfterAddZDistance(s, zone, distance);
      assert AfterAddZDistance(Mirror(s), Other(zone), distance) == Mirror(fed);
      MirrorUpdatedPathTracker(fed.tracker, zone, Detector(fed, zone).lastPeak);
    }
  }

  lemma MirrorUpdatePeopleCounterData(s: CounterState, zone: Zone)
    requires s.Valid()
    ensures AfterUpdatePeopleCounterData(Mirror(s), Other(zone)) == Mirror(AfterUpdatePeopleCounterData(s, zone))
  {
    var d := NotedPeaks(s, zone);
    assert NotedPeaks(Mirror(s), Other(zone)) == MirrorData(d);
    MirrorProcessedPathTracker(s.tracker, d, s.peakVariationTolerance);
    assert ClearedPathBuffer(MirrorTracker(s.tracker)) == MirrorTracker(ClearedPathBuffer(s.tracker));
  }

  lemma MirrorProcessPeopleCounterData(s: CounterState)
    ensures AfterProcessPeopleCounterData(Mirror(s)) == Mirror(AfterProcessPeopleCounterData(s))
  {
    MirrorProcessedPathTracker(s.tracker, s.data, s.peakVariationTolerance);
  }

  /** The counter has no preferred direction: the mirrored sample in the
      mirrored counter gives the mirrored result, so a stream of samples and
      its mirror image move the count by opposite amounts. */
  lemma MirrorAddData(s: CounterState, distance: int, zone: Zone)
    requires s.Valid()
    ensures AfterAddData(Mirror(s), distance, Other(zone)) == Mirror(AfterAddData(s, distance, zone))
  {
    if s.ceilingThreshold <= distance <= s.floorThreshold {
      var a := AfterStatusUpdate(s, distance, zone);
      MirrorStatusUpdate(s, distance, zone);
      var b := AfterPeakUpdate(a, distance, zone);
      MirrorPeakUpdate(a, distance, zone);
      var u := AfterUpdatePeopleCounterData(b, zone);
      MirrorUpdatePeopleCounterData(b, zone);
      MirrorProcessPeopleCounterData(u);
    }
  }

  /** One reading handed to `addData`. */
  datatype Sample = Sample(distance: int, zone: Zone)

  /** The counter after a stream of readings, each given to `addData` in
      turn. */
  function Run(s: CounterState, samples: seq<Sample>): (r: CounterState)
    requires s.Valid()
    ensures r.Valid() && SameSettings(r, s) && SameDetectorSettings(r, s)
    decreases |samples|
  {
    if |samples| == 0 then s
    else Run(AfterAddData(s, samples[0].distance, samples[0].zone), samples[1..])
  }

  /** The same readings with every zone swapped. */
  function MirrorSamples(samples: seq<Sample>): (m: seq<Sample>)
    ensures |m| == |samples|
    ensures forall i :: 0 <= i < |samples| ==> m[i] == Sample(samples[i].distance, Other(samples[i].zone))
  {
    seq(|samples|, i requires 0 <= i < |samples| => Sample(samples[i].distance, Other(samples[i].zone)))
  }

  /** A whole stream and its mirror image leave mirrored counters. */
  lemma {:induction false} MirrorRun(s: CounterState, samples: seq<Sample>)
    requires s.Valid()
    ensures Run(Mirror(s), MirrorSamples(samples)) == Mirror(Run(s, samples))
    decreases |samples|
  {
    if |samples| > 0 {
      var x := samples[0];
      MirrorAddData(s, x.distance, x.zone);
      var next := AfterAddData(s, x.distance, x.zone);
      MirrorRun(next, samples[1..]);
      assert MirrorSamples(samples)[1..] == MirrorSamples(samples[1..]);
    }
  }

  /** So the people a stream counts in, its mirror image counts out. */
  lemma MirroredStreamNegatesCount(s: CounterState, samples: seq<Sample>)
    requires s.Valid()
    ensures Run(Mirror(s), MirrorSamples(samples)).pplCount - Mirror(s).pplCount
              == -(Run(s, samples).pplCount - s.pplCount)
  {
    MirrorRun(s, samples);
  }

  /** The count is only ever added to: a counter that starts `k` higher
      takes a sample exactly as the other does and stays `k` higher. */
  lemma AddDataShiftsCount(s: CounterState, distance: int, zone: Zone, k: int)
    requires s.Valid()
    ensures AfterAddData(Shifted(s, k), distance, zone) == Shifted(AfterAddData(s, distance, zone), k)
  {
    if s.ceilingThreshold <= distance <= s.floorThreshold {
      var a := AfterStatusUpdate(s, distance, zone);
      StatusUpdateShiftsCount(s, distance, zone, k);
      var b := AfterPeakUpdate(a, distance, zone);
      PeakUpdateShiftsCount(a, distance, zone, k);
      var u := AfterUpdatePeopleCounterData(b, zone);
      assert AfterUpdatePeopleCounterData(Shifted(b, k), zone) == Shifted(u, k) by {
        assert NotedPeaks(Shifted(b, k), zone) == NotedPeaks(b, zone);
      }
      if BothVacant(u) {
        assert AfterProcessPeopleCounterData(Shifted(u, k)) == Shifted(AfterProcessPeopleCounterData(u), k);
      }
    }
  }

  /** The counter with `k` added to its count. */
  function Shifted(s: CounterState, k: int): (t: CounterState)
    ensures t.pplCount == s.pplCount + k && t.(pplCount := s.pplCount) == s
  {
    s.(pplCount := s.pplCount + k)
  }

  lemma StatusUpdateShiftsCount(s: CounterState, distance: int, zone: Zone, k: int)
    requires s.Valid()
    ensures AfterStatusUpdate(Shifted(s, k), distance, zone) == Shifted(AfterStatusUpdate(s, distance, zone), k)
  {
    var saved := AfterSavePreviousStatus(s, zone);
    assert AfterSavePreviousStatus(Shifted(s, k), zone) == Shifted(saved, k);
    assert AfterClearData(Shifted(saved, k)) == Shifted(AfterClearData(saved), k);
    assert forall c: CounterState, st :: AfterSetZoneStatus(Shifted(c, k), zone, st) == Shifted(AfterSetZoneStatus(c, zone, st), k);
  }

  lemma PeakUpdateShiftsCount(s: CounterState, distance: int, zone: Zone, k: int)
    requires s.Valid()
    ensures AfterPeakUpdate(Shifted(s, k), distance, zone) == Shifted(AfterPeakUpdate(s, distance, zone), k)
  {
    if Status(s, zone) == Occupied {
      var fed := AfterAddZDistance(s, zone, distance);
      assert AfterAddZDistance(Shifted(s, k), zone, distance) == Shifted(fed, k);
      assert AfterUpdatePathTracker(Shifted(fed, k), zone) == Shifted(AfterUpdatePathTracker(fed, zone), k);
    }
  }

  /** The same for a whole stream. */
  lemma {:induction false} RunShiftsCount(s: CounterState, samples: seq<Sample>, k: int)
    requires s.Valid()
    ensures Run(Shifted(s, k), samples) == Shifted(Run(s, samples), k)
    decreases |samples|
  {
    if |samples| > 0 {
      var x := samples[0];
      AddDataShiftsCount(s, x.distance, x.zone, k);
      RunShiftsCount(AfterAddData(s, x.distance, x.zone), samples[1..], k);
    }
  }

  /** The constructor as written leaves the count uninitialised: after any
      stream of readings the counter reports the intended count plus
      whatever its storage held. */
  lemma LeftoverCountOffsetsEveryReading(floorThresh: int, floorToCeiling: int, vacancyThresholdPer: UInt8,
                                         leftover: int, samples: seq<Sample>)
    ensures Run(CounterConstructedAsWritten(floorThresh, floorToCeiling, vacancyThresholdPer, leftover), samples).pplCount
         == Run(CounterConstructed(floorThresh, floorToCeiling, vacancyThresholdPer), samples).pplCount + leftover
  {
    var s := CounterConstructed(floorThresh, floorToCeiling, vacancyThresholdPer);
    assert CounterConstructedAsWritten(floorThresh, floorToCeiling, vacancyThresholdPer, leftover)
        == Shifted(s, leftover);
    RunShiftsCount(s, samples, leftover);
  }

  /** Readings taken at a series of instants, each instant's left reading
      handed to `addData` before its right one. */
  function Interleave(left: seq<int>, right: seq<int>): (r: seq<Sample>)
    requires |left| == |right|
    ensures |r| == 2 * |left|
    ensures forall i :: 0 <= i < |left| ==> r[2 * i] == Sample(left[i], Left) && r[2 * i + 1] == Sample(right[i], Right)
  {
    if |left| == 0 then [] else [Sample(left[0], Left), Sample(right[0], Right)] + Interleave(left[1..], right[1..])
  }

  /** One instant: its left reading, then its right one. */
  function Instant(s: CounterState, l: int, r: int): (t: CounterState)
    requires s.Valid()
    ensures t.Valid()
  {
    AfterAddData(AfterAddData(s, l, Left), r, Right)
  }

  /** A run of paired readings begins with its first instant. */
  lemma RunStep(s: CounterState, l: int, r: int, left: seq<int>, right: seq<int>)
    requires s.Valid() && |left| == |right|
    ensures Run(s, Interleave([l] + left, [r] + right)) == Run(Instant(s, l, r), Interleave(left, right))
  {
    var rest := Interleave(left, right);
    InterleaveCons([l] + left, [r] + right);
    assert ([l] + left)[1..] == left && ([r] + right)[1..] == right;
    RunCons(s, Sample(l, Left), [Sample(r, Right)] + rest);
    RunCons(AfterAddData(s, l, Left), Sample(r, Right), rest);
  }

  /** The same, for a stream given as a whole. */
  lemma RunFirst(s: CounterState, left: seq<int>, right: seq<int>)
    requires s.Valid() && |left| == |right| > 0
    ensures Run(s, Interleave(left, right)) == Run(Instant(s, left[0], right[0]), Interleave(left[1..], right[1..]))
  {
    var rest := Interleave(left[1..], right[1..]);
    InterleaveCons(left, right);
    RunCons(s, Sample(left[0], Left), [Sample(right[0], Right)] + rest);
    RunCons(AfterAddData(s, left[0], Left), Sample(right[0], Right), rest);
  }

  lemma InterleaveCons(left: seq<int>, right: seq<int>)
    requires |left| == |right| > 0
    ensures Interleave(left, right)
      == [Sample(left[0], Left)] + ([Sample(right[0], Right)] + Interleave(left[1..], right[1..]))
  {
  }

  lemma RunCons(s: CounterState, x: Sample, rest: seq<Sample>)
    requires s.Valid()
    ensures Run(s, [x] + rest) == Run(AfterAddData(s, x.distance, x.zone), rest)
  {
    assert ([x] + rest)[1..] == rest;
  }

  /** Readings of one zone, handed to `addData` in turn. */
  function Readings(xs: seq<int>, zone: Zone): (r: seq<Sample>)
    ensures |r| == |xs| && forall i :: 0 <= i < |xs| ==> r[i] == Sample(xs[i], zone)
  {
    seq(|xs|, i requires 0 <= i < |xs| => Sample(xs[i], zone))
  }

  /** Readings of one zone only, all inside the range, never move the count
      while the other zone stays vacant: no episode is marked as one in which
      both zones were occupied. The zone is left as its last reading says. */
  lemma {:induction false} OneSidedStreamKeepsCount(s: CounterState, samples: seq<Sample>, zone: Zone)
    requires s.Valid() && Status(s, Other(zone)) == Vacant
    requires !s.data.zoneOverlap || BothVacant(s)
    requires forall i :: 0 <= i < |samples| ==>
      samples[i].zone == zone && s.ceilingThreshold <= samples[i].distance <= s.floorThreshold
    ensures var r := Run(s, samples);
      && r.pplCount == s.pplCount && Status(r, Other(zone)) == Vacant
      && (|samples| > 0 ==>
            Status(r, zone) == if samples[|samples| - 1].distance < s.zoneVacancyThreshold then Occupied else Vacant)
    decreases |samples|
  {
    if |samples| > 0 {
      var x := samples[0];
      UnmarkedSampleKeepsCount(s, x.distance, zone);
      StatusFollowsSample(s, x.distance, zone);
      var next := AfterAddData(s, x.distance, zone);
      OneSidedStreamKeepsCount(next, samples[1..], zone);
    }
  }

  /** Paired readings in which the two zones are never occupied at once:
      no reading closer than `vacancy` at the same instant as one on the
      other side, nor a left one straight after a right one. */
  predicate Apart(left: seq<int>, right: seq<int>, vacancy: int)
    requires |left| == |right|
  {
    && (forall i :: 0 <= i < |left| ==> !(left[i] < vacancy && right[i] < vacancy))
    && (forall i :: 0 <= i < |left| - 1 ==> !(right[i] < vacancy && left[i + 1] < vacancy))
  }

  /** Such readings, all inside the range, never move the count. */
  lemma {:induction false} ApartStreamKeepsCount(s: CounterState, left: seq<int>, right: seq<int>)
    requires s.Valid() && |left| == |right|
    requires !s.data.zoneOverlap || BothVacant(s)
    requires forall i :: 0 <= i < |left| ==>
      s.ceilingThreshold <= left[i] <= s.floorThreshold && s.ceilingThreshold <= right[i] <= s.floorThreshold
    requires |left| > 0 ==> s.rightStatus == Vacant || left[0] >= s.zoneVacancyThreshold
    requires Apart(left, right, s.zoneVacancyThreshold)
    ensures var r := Run(s, Interleave(left, right));
      && r.pplCount == s.pplCount
      && (|left| > 0 ==>
            && r.leftStatus == (if left[|left| - 1] < s.zoneVacancyThreshold then Occupied else Vacant)
            && r.rightStatus == (if right[|right| - 1] < s.zoneVacancyThreshold then Occupied else Vacant))
    decreases |left|, 1
  {
    if |left| == 1 {
      ApartInstant(s, left[0], right[0]);
      OneInstantRun(s, left, right);
    } else if |left| > 1 {
      ApartStep(s, left, right);
    }
  }

  /** The step of `ApartStreamKeepsCount` for more than one instant: the
      first instant, then the rest. */
  lemma {:induction false} ApartStep(s: CounterState, left: seq<int>, right: seq<int>)
    requires s.Valid() && |left| == |right| > 1
    requires !s.data.zoneOverlap || BothVacant(s)
    requires forall i :: 0 <= i < |left| ==>
      s.ceilingThreshold <= left[i] <= s.floorThreshold && s.ceilingThreshold <= right[i] <= s.floorThreshold
    requires s.rightStatus == Vacant || left[0] >= s.zoneVacancyThreshold
    requires Apart(left, right, s.zoneVacancyThreshold)
    ensures var r := Run(s, Interleave(left, right));
      && r.pplCount == s.pplCount
      && r.leftStatus == (if left[|left| - 1] < s.zoneVacancyThreshold then Occupied else Vacant)
      && r.rightStatus == (if right[|right| - 1] < s.zoneVacancyThreshold then Occupied else Vacant)
    decreases |left|, 0
  {
    ApartNext(s, left, right);
    RunFirst(s, left, right);
    ApartStreamKeepsCount(Instant(s, left[0], right[0]), left[1..], right[1..]);
  }

  /** After the first instant of such readings, the rest still meet the
      conditions of `ApartStreamKeepsCount`. */
  lemma ApartNext(s: CounterState, left: seq<int>, right: seq<int>)
    requires s.Valid() && |left| == |right| > 1
    requires !s.data.zoneOverlap || BothVacant(s)
    requires forall i :: 0 <= i < |left| ==>
      s.ceilingThreshold <= left[i] <= s.floorThreshold && s.ceilingThreshold <= right[i] <= s.floorThreshold
    requires s.rightStatus == Vacant || left[0] >= s.zoneVacancyThreshold
    requires Apart(left, right, s.zoneVacancyThreshold)
    ensures var b := Instant(s, left[0], right[0]);
      && b.Valid() && !b.data.zoneOverlap && b.pplCount == s.pplCount && SameSettings(b, s)
      && (forall i :: 0 <= i < |left| - 1 ==>
            b.ceilingThreshold <= left[1..][i] <= b.floorThreshold && b.ceilingThreshold <= right[1..][i] <= b.floorThreshold)
      && (b.rightStatus == Vacant || left[1..][0] >= b.zoneVacancyThreshold)
      && Apart(left[1..], right[1..], b.zoneVacancyThreshold)
      && left[1..][|left| - 2] == left[|left| - 1] && right[1..][|left| - 2] == right[|left| - 1]
  {
    ApartInstant(s, left[0], right[0]);
    ApartTail(left, right, s.zoneVacancyThreshold);
    assert !(right[0] < s.zoneVacancyThreshold && left[1] < s.zoneVacancyThreshold);
  }

  /** A one-instant stream is that instant. */
  lemma OneInstantRun(s: CounterState, left: seq<int>, right: seq<int>)
    requires s.Valid() && |left| == |right| == 1
    ensures Run(s, Interleave(left, right)) == Instant(s, left[0], right[0])
  {
    RunFirst(s, left, right);
    assert Interleave(left[1..], right[1..]) == [];
  }

  /** Dropping the first instant keeps readings apart. */
  lemma ApartTail(left: seq<int>, right: seq<int>, vacancy: int)
    requires |left| == |right| > 0 && Apart(left, right, vacancy)
    ensures Apart(left[1..], right[1..], vacancy)
  {
    assert forall i :: 0 <= i < |left| - 1 ==> left[1..][i] == left[i + 1] && right[1..][i] == right[i + 1];
  }

  /** One instant of such readings. */
  lemma ApartInstant(s: CounterState, l: int, r: int)
    requires s.Valid() && (!s.data.zoneOverlap || BothVacant(s))
    requires s.ceilingThreshold <= l <= s.floorThreshold && s.ceilingThreshold <= r <= s.floorThreshold
    requires s.rightStatus == Vacant || l >= s.zoneVacancyThreshold
    requires !(l < s.zoneVacancyThreshold && r < s.zoneVacancyThreshold)
    ensures var b := Instant(s, l, r);
      && !b.data.zoneOverlap && b.pplCount == s.pplCount && SameSettings(b, s)
      && b.leftStatus == (if l < s.zoneVacancyThreshold then Occupied else Vacant)
      && b.rightStatus == (if r < s.zoneVacancyThreshold then Occupied else Vacant)
  {
    UnmarkedSampleKeepsCount(s, l, Left);
    StatusFollowsSample(s, l, Left);
    var a := AfterAddData(s, l, Left);
    UnmarkedSampleKeepsCount(a, r, Right);
    StatusFollowsSample(a, r, Right);
  }
}
