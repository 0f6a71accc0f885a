// The people counter: two peak detectors, one per zone of the doorway, a
// two-slot path tracker that pairs peaks seen in opposite zones, and the
// per-episode data from which the signed change to the head count is drawn
// once both zones are vacant again.
//
// `CounterState` is the value of the counter's fields (its two detectors as
// `DetectorState` values) and the `After*` functions say what each operation
// of the counter does to it; the class `PeopleCounter` owns two
// `PeakDetector` objects and updates its fields in place, and each of its
// methods is proved to leave `Model() == After*(old(Model()), ...)`.

module PeopleCounting {
  import opened CArith
  import opened PeakDetection

  const DefaultVacancyPercentage: UInt8 := 5
  const DefaultPeakVariationTolerance: UInt8 := 10

  datatype Zone = Left | Right
  datatype ZoneStatus = Vacant | Occupied

  /** The zone a tracked peak came from; `NoZone` marks an empty slot. */
  datatype EventZone = LeftZone | RightZone | NoZone

  datatype PeakData = PeakData(zone: EventZone, distance: int)

  /** The path tracker's `window[2]`. */
  type PathWindow = w: seq<PeakData> | |w| == 2
    witness [PeakData(NoZone, 0), PeakData(NoZone, 0)]

  /** The path tracker's `bufferCount`; every store goes to slot
      `bufferCount - 1`, and the count never passes 2. */
  type PathCount = n: int | 0 <= n <= 2

  datatype PathTracker = PathTracker(
    window: PathWindow,
    preWindow: PeakData,
    bufferCount: PathCount,
    bufferFull: bool)

  datatype PeopleCounterData = PeopleCounterData(
    firstPeakZone: EventZone,
    lastPeakZone: EventZone,
    zoneOverlap: bool,
    numPeaks: UInt8,
    marginalChange: int)

  datatype CounterState = CounterState(
    left: DetectorState,
    right: DetectorState,
    tracker: PathTracker,
    data: PeopleCounterData,
    zoneVacancyThreshold: int,
    ceilingThreshold: int,
    floorThreshold: int,
    peakVariationTolerance: UInt8,
    peakDetectionFloor: int,
    pplCount: int,
    leftStatus: ZoneStatus,
    previousLeftStatus: ZoneStatus,
    rightStatus: ZoneStatus,
    previousRightStatus: ZoneStatus)
  {
    ghost predicate Valid()
    {
      left.Valid() && right.Valid()
    }
  }

  /** Between two samples the path tracker holds at most one peak: a second
      one always completes a pair that is processed and cleared at once. */
  predicate Idle(t: PathTracker)
  {
    t.bufferCount <= 1 && !t.bufferFull
  }

  function Other(zone: Zone): (o: Zone)
    ensures o != zone
  {
    if zone == Left then Right else Left
  }

  function ZoneEvent(zone: Zone): (e: EventZone)
    ensures e != NoZone
    ensures (e == LeftZone) <==> (zone == Left)
  {
    if zone == Left then LeftZone else RightZone
  }

  function Detector(s: CounterState, zone: Zone): DetectorState
  {
    if zone == Left then s.left else s.right
  }

  function WithDetector(s: CounterState, zone: Zone, d: DetectorState): (r: CounterState)
    ensures Detector(r, zone) == d && Detector(r, Other(zone)) == Detector(s, Other(zone))
  {
    if zone == Left then s.(left := d) else s.(right := d)
  }

  /** `getZoneStatus`. */
  function Status(s: CounterState, zone: Zone): ZoneStatus
  {
    if zone == Left then s.leftStatus else s.rightStatus
  }

  /** The thresholds and tolerances, which only the setters change. */
  predicate SameSettings(a: CounterState, b: CounterState)
  {
    && a.zoneVacancyThreshold == b.zoneVacancyThreshold
    && a.ceilingThreshold == b.ceilingThreshold && a.floorThreshold == b.floorThreshold
    && a.peakVariationTolerance == b.peakVariationTolerance
    && a.peakDetectionFloor == b.peakDetectionFloor
  }

  /** The detectors' widths, tolerances and floors, which only the setters
      change. */
  predicate SameDetectorSettings(a: CounterState, b: CounterState)
  {
    && a.left.window == b.left.window && a.left.tolerance == b.left.tolerance
    && a.left.floorThreshold == b.left.floorThreshold
    && a.right.window == b.right.window && a.right.tolerance == b.right.tolerance
    && a.right.floorThreshold == b.right.floorThreshold
  }

  function BothVacant(s: CounterState): bool
  {
    s.leftStatus == Vacant && s.rightStatus == Vacant
  }

  /** The truncated percentage term of the constructor and of
      `setVacancyThreshold`, in C's `int` arithmetic. */
  function Percent(range: int, percent: UInt8): (p: int)
    ensures range >= 0 ==> 0 <= p && p * 100 <= range * percent as int
    ensures range <= 0 ==> p <= 0 && p * 100 >= range * percent as int
  {
    TruncDiv(range * percent as int, 100)
  }

  /** `setVacancyThreshold`: `percent` per cent of the way from the floor
      towards the ceiling. */
  function VacancyThreshold(floorThreshold: int, ceilingThreshold: int, percent: UInt8): (v: int)
    ensures ceilingThreshold <= floorThreshold && percent <= 100 ==>
      ceilingThreshold <= v <= floorThreshold
  {
    ScaledRangeBound(ceilingThreshold - floorThreshold, percent);
    floorThreshold + Percent(ceilingThreshold - floorThreshold, percent)
  }

  /** A non-positive range scaled by at most 100 per cent stays above the
      whole range. */
  lemma ScaledRangeBound(range: int, percent: UInt8)
    ensures range <= 0 && percent <= 100 ==> range * percent as int >= range * 100
  {
    if range <= 0 && percent <= 100 {
      assert range * percent as int - range * 100 == range * (percent as int - 100);
    }
  }

  /** The floor both detectors are built with. */
  function DetectorFloor(floorThresh: int, floorToCeiling: int, vacancyThresholdPer: UInt8): (f: int)
    ensures floorToCeiling >= 0 ==> f >= floorThresh
  {
    floorThresh + Percent(floorToCeiling, vacancyThresholdPer)
  }

  const InitialData := PeopleCounterData(NoZone, NoZone, false, 0, 0)

  /** `initializePeopleCounterData`. */
  function AfterInitializePeopleCounterData(s: CounterState): (r: CounterState)
    ensures r.data.firstPeakZone == NoZone && r.data.lastPeakZone == NoZone
    ensures !r.data.zoneOverlap && r.data.numPeaks == 0 && r.data.marginalChange == 0
    ensures r == s.(data := r.data)
  {
    s.(data := InitialData)
  }

  /** `clearPathBuffer`: both slots empty; the slots' distances and the
      pre-window are kept. */
  function ClearedPathBuffer(t: PathTracker): (r: PathTracker)
    ensures Idle(r) && r.bufferCount == 0
    ensures r.window[0].zone == NoZone && r.window[1].zone == NoZone
    ensures r.window[0].distance == t.window[0].distance && r.window[1].distance == t.window[1].distance
    ensures r.preWindow == t.preWindow
  {
    PathTracker([t.window[0].(zone := NoZone), t.window[1].(zone := NoZone)], t.preWindow, 0, false)
  }

  /** `initializePathTracker`: the buffer is cleared and the pre-window
      forgotten. */
  function InitializedPathTracker(t: PathTracker): (r: PathTracker)
    ensures Idle(r) && r.bufferCount == 0
    ensures r.window[0].zone == NoZone && r.window[1].zone == NoZone && r.preWindow.zone == NoZone
  {
    var c := ClearedPathBuffer(t);
    c.(preWindow := c.preWindow.(zone := NoZone))
  }

  /** Whether a peak in `zone` completes a crossing begun by `earlier`. */
  predicate Opposite(earlier: EventZone, zone: Zone)
  {
    (earlier == LeftZone && zone == Right) || (earlier == RightZone && zone == Left)
  }

  /** `updatePathTracker`, given the last peak of `zone`'s detector: a peak
      opposite the one held fills the second slot and marks the buffer full;
      any other peak replaces the one held, which moves to the pre-window. */
  function UpdatedPathTracker(t: PathTracker, zone: Zone, lastPeak: int): (r: PathTracker)
    ensures r.bufferCount >= 1
    ensures Idle(t) ==> (r.bufferFull <==> r.bufferCount == 2)
    ensures Idle(t) ==> (r.bufferFull <==> t.bufferCount == 1 && Opposite(t.window[0].zone, zone))
    ensures r.window[r.bufferCount - 1] == PeakData(ZoneEvent(zone), lastPeak)
  {
    var held :=
      if t.bufferCount == 0 then
        t.(bufferCount := 1)
      else if t.bufferCount == 1 then
        if Opposite(t.window[0].zone, zone) then
          t.(bufferFull := true, preWindow := PeakData(ZoneEvent(zone), lastPeak), bufferCount := 2)
        else
          t.(preWindow := t.window[0])
      else
        t;
    held.(window := held.window[held.bufferCount - 1 := PeakData(ZoneEvent(zone), lastPeak)])
  }

  /** `processPathTracker`: the change a pair of slots, or a single peak after
      an opposite pre-window, contributes to the episode's data. */
  function ProcessedPathTracker(t: PathTracker, d: PeopleCounterData, tol: UInt8): (r: PeopleCounterData)
    ensures r.firstPeakZone == d.firstPeakZone && r.lastPeakZone == d.lastPeakZone
    ensures r.zoneOverlap == d.zoneOverlap
    ensures -1 <= r.marginalChange - d.marginalChange <= 1
    ensures t.window[0].zone == NoZone ==> r == d
  {
    var w0, w1 := t.window[0], t.window[1];
    if w0.zone == LeftZone then
      if w1.zone == RightZone then
        if Abs(w0.distance - w1.distance) <= tol as int then
          d.(marginalChange := d.marginalChange + 1, numPeaks := U8Add(d.numPeaks, 2))
        else
          d.(numPeaks := U8Add(d.numPeaks, 1))
      else if w1.zone == NoZone && t.preWindow.zone == RightZone then
        d.(marginalChange := d.marginalChange - 1, numPeaks := U8Add(d.numPeaks, 1))
      else
        d
    else if w0.zone == RightZone then
      if w1.zone == LeftZone then
        if Abs(w0.distance - w1.distance) <= tol as int then
          d.(marginalChange := d.marginalChange - 1, numPeaks := U8Add(d.numPeaks, 2))
        else
          d.(numPeaks := U8Add(d.numPeaks, 1))
      else if w1.zone == NoZone && t.preWindow.zone == LeftZone then
        d.(marginalChange := d.marginalChange + 1, numPeaks := U8Add(d.numPeaks, 1))
      else
        d
    else
      d
  }

  /** `addZDistance`. */
  function AfterAddZDistance(s: CounterState, zone: Zone, distance: int): (r: CounterState)
    requires s.Valid()
    ensures r.Valid()
    ensures r == WithDetector(s, zone, AfterAddDistance(Detector(s, zone), distance))
  {
    WithDetector(s, zone, AfterAddDistance(Detector(s, zone), distance))
  }

  /** `updatePathTracker`, with the peak value read from `zone`'s detector. */
  function AfterUpdatePathTracker(s: CounterState, zone: Zone): (r: CounterState)
    ensures r == s.(tracker := r.tracker) && r.tracker.bufferCount >= 1
    ensures r.tracker.window[r.tracker.bufferCount - 1] == PeakData(ZoneEvent(zone), Detector(s, zone).lastPeak)
  {
    s.(tracker := UpdatedPathTracker(s.tracker, zone, Detector(s, zone).lastPeak))
  }

  /** `setZoneStatus`. */
  function AfterSetZoneStatus(s: CounterState, zone: Zone, status: ZoneStatus): (r: CounterState)
    ensures Status(r, zone) == status && Status(r, Other(zone)) == Status(s, Other(zone))
  {
    if zone == Left then s.(leftStatus := status) else s.(rightStatus := status)
  }

  /** `savePreviousStatus`. */
  function AfterSavePreviousStatus(s: CounterState, zone: Zone): (r: CounterState)
    ensures zone == Left ==> r == s.(previousLeftStatus := s.leftStatus)
    ensures zone == Right ==> r == s.(previousRightStatus := s.rightStatus)
    ensures r.leftStatus == s.leftStatus && r.rightStatus == s.rightStatus
  {
    if zone == Left then s.(previousLeftStatus := s.leftStatus)
    else s.(previousRightStatus := s.rightStatus)
  }

  /** `clearData`: a new episode; both detectors are reset and the path and
      episode data start over. Thresholds, statuses and the count stay. */
  function AfterClearData(s: CounterState): (r: CounterState)
    requires s.Valid()
    ensures r.Valid() && Idle(r.tracker) && r.data == InitialData
    ensures r.tracker.window[0].zone == NoZone && r.tracker.window[1].zone == NoZone
    ensures r.tracker.preWindow.zone == NoZone
    ensures r.left == AfterReset(s.left) && r.right == AfterReset(s.right)
    ensures r == s.(tracker := r.tracker, data := r.data, left := r.left, right := r.right)
  {
    s.(tracker := InitializedPathTracker(s.tracker),
       data := InitialData,
       left := AfterReset(s.left),
       right := AfterReset(s.right))
  }

  /** The first three steps of `updatePeopleCounterData`: the zone of the
      episode's first peak (the calling zone, when its detector holds the
      only peak of the two), the zone of the latest peak (the calling zone,
      when its detector currently reports one) and whether both zones are
      occupied at once. */
  function NotedPeaks(s: CounterState, zone: Zone): (d: PeopleCounterData)
    requires s.Valid()
    ensures d.numPeaks == s.data.numPeaks && d.marginalChange == s.data.marginalChange
    ensures d.firstPeakZone == (if Detector(s, zone).numberOfPeaks == 1 && Detector(s, Other(zone)).numberOfPeaks == 0
                                then ZoneEvent(zone) else s.data.firstPeakZone)
    ensures d.lastPeakZone == (if PeakPresent(Detector(s, zone)) then ZoneEvent(zone) else s.data.lastPeakZone)
    ensures d.zoneOverlap == (s.data.zoneOverlap || (s.leftStatus == Occupied && s.rightStatus == Occupied))
  {
    var nl, nr := s.left.numberOfPeaks, s.right.numberOfPeaks;
    var first :=
      if zone == Left && nl == 1 && nr == 0 then LeftZone
      else if zone == Right && nl == 0 && nr == 1 then RightZone
      else s.data.firstPeakZone;
    var last := if PeakPresent(Detector(s, zone)) then ZoneEvent(zone) else s.data.lastPeakZone;
    var overlap := if s.leftStatus == Occupied && s.rightStatus == Occupied then true else s.data.zoneOverlap;
    s.data.(firstPeakZone := first, lastPeakZone := last, zoneOverlap := overlap)
  }

  /** `updatePeopleCounterData`: notes the zone of the episode's first peak
      and of the latest peak, whether both zones were ever occupied at once,
      and folds a full path buffer into the episode's data. */
  function AfterUpdatePeopleCounterData(s: CounterState, zone: Zone): (r: CounterState)
    requires s.Valid()
    ensures r.Valid()
    ensures r == s.(data := r.data, tracker := r.tracker)
    ensures s.tracker.bufferFull ==> r.tracker == ClearedPathBuffer(s.tracker)
    ensures !s.tracker.bufferFull ==> r.tracker == s.tracker
    ensures s.tracker.bufferFull ==> r.data == ProcessedPathTracker(s.tracker, NotedPeaks(s, zone), s.peakVariationTolerance)
    ensures !s.tracker.bufferFull ==> r.data == NotedPeaks(s, zone)
    ensures PeakPresent(Detector(s, zone)) ==> r.data.lastPeakZone == ZoneEvent(zone)
    ensures s.leftStatus == Occupied && s.rightStatus == Occupied ==> r.data.zoneOverlap
  {
    var d := NotedPeaks(s, zone);
    if s.tracker.bufferFull then
      s.(data := ProcessedPathTracker(s.tracker, d, s.peakVariationTolerance),
         tracker := ClearedPathBuffer(s.tracker))
    else
      s.(data := d)
  }

  /** The sign applied to the episode's net crossings: a person who came
      back the way they entered leaves an odd number of peaks that begin and
      end in the same zone. */
  function Multiplier(d: PeopleCounterData): (m: int)
    ensures m == 1 || m == -1
    ensures m == -1 <==> d.firstPeakZone == d.lastPeakZone && d.numPeaks % 2 == 1
  {
    if d.firstPeakZone == d.lastPeakZone && d.numPeaks % 2 == 1 then -1 else 1
  }

  /** `processPeopleCounterData`: the peak still held is processed, and an
      episode in which both zones were occupied at once adds its signed net
      crossings to the count. */
  function AfterProcessPeopleCounterData(s: CounterState): (r: CounterState)
    ensures r == s.(data := r.data, pplCount := r.pplCount)
    ensures !s.tracker.bufferFull ==> r.data == ProcessedPathTracker(s.tracker, s.data, s.peakVariationTolerance)
    ensures s.tracker.bufferFull ==> r.data == s.data
    ensures !r.data.zoneOverlap ==> r.pplCount == s.pplCount
    ensures r.data.zoneOverlap ==> r.pplCount == s.pplCount + Multiplier(r.data) * r.data.marginalChange
  {
    var d := if !s.tracker.bufferFull then ProcessedPathTracker(s.tracker, s.data, s.peakVariationTolerance) else s.data;
    var count := if d.zoneOverlap then s.pplCount + Multiplier(d) * d.marginalChange else s.pplCount;
    s.(data := d, pplCount := count)
  }

  /** The zone-status part of `addData` for an accepted sample: the zone is
      occupied afterwards exactly when the sample is closer than the vacancy
      threshold, whatever it was before; a sample that finds both zones
      vacant starts a new episode first. */
  function AfterStatusUpdate(s: CounterState, distance: int, zone: Zone): (r: CounterState)
    requires s.Valid()
    ensures r.Valid()
    ensures Status(r, zone) == (if distance < s.zoneVacancyThreshold then Occupied else Vacant)
    ensures Status(r, Other(zone)) == Status(s, Other(zone))
    ensures SameSettings(r, s) && r.pplCount == s.pplCount
  {
    var saved := AfterSavePreviousStatus(s, zone);
    if Status(saved, zone) == Vacant then
      var c := if BothVacant(saved) then AfterClearData(saved) else saved;
      if distance < c.zoneVacancyThreshold then AfterSetZoneStatus(c, zone, Occupied) else c
    else if distance >= saved.zoneVacancyThreshold then
      AfterSetZoneStatus(saved, zone, Vacant)
    else
      saved
  }

  /** The peak part of `addData`: an occupied zone's detector takes the
      sample, and a peak it reports goes to the path tracker. */
  function AfterPeakUpdate(s: CounterState, distance: int, zone: Zone): (r: CounterState)
    requires s.Valid()
    ensures r.Valid()
    ensures Detector(r, Other(zone)) == Detector(s, Other(zone))
    ensures r == s.(left := r.left, right := r.right, tracker := r.tracker)
    ensures Status(s, zone) == Vacant ==> r == s
    ensures Status(s, zone) == Occupied ==> Detector(r, zone) == AfterAddDistance(Detector(s, zone), distance)
    ensures Status(s, zone) == Occupied ==>
      r.tracker == if PeakPresent(Detector(r, zone))
                   then UpdatedPathTracker(s.tracker, zone, Detector(r, zone).lastPeak) else s.tracker
  {
    if Status(s, zone) == Occupied then
      var fed := AfterAddZDistance(s, zone, distance);
      if PeakPresent(Detector(fed, zone)) then AfterUpdatePathTracker(fed, zone) else fed
    else
      s
  }

  /** `addData`: samples outside [ceiling, floor] are dropped; an accepted
      one updates the zone's status and detector, the path tracker and the
      episode's data, and, when it leaves both zones vacant, the count. */
  function AfterAddData(s: CounterState, distance: int, zone: Zone): (r: CounterState)
    requires s.Valid()
    ensures r.Valid()
    ensures distance < s.ceilingThreshold || distance > s.floorThreshold ==> r == s
    ensures SameSettings(r, s) && SameDetectorSettings(r, s)
    ensures r.pplCount == s.pplCount +
      if s.ceilingThreshold <= distance <= s.floorThreshold && BothVacant(r) && r.data.zoneOverlap
      then Multiplier(r.data) * r.data.marginalChange else 0
  {
    if s.ceilingThreshold <= distance <= s.floorThreshold then
      var u := AfterUpdatePeopleCounterData(AfterPeakUpdate(AfterStatusUpdate(s, distance, zone), distance, zone), zone);
      if BothVacant(u) then AfterProcessPeopleCounterData(u) else u
    else
      s
  }

  /** The state the constructor leaves: both detectors built with the floor
      raised by the vacancy percentage of the range, the ceiling the range
      below the floor, both zones vacant and the count at zero. */
  function CounterConstructed(floorThresh: int, floorToCeiling: int, vacancyThresholdPer: UInt8): (r: CounterState)
    ensures r.Valid() && Idle(r.tracker) && r.data == InitialData
    ensures r.left == r.right == PeakDetection.Constructed(DetectorFloor(floorThresh, floorToCeiling, vacancyThresholdPer))
    ensures r.ceilingThreshold == floorThresh - Abs(floorToCeiling) && r.floorThreshold == floorThresh
    ensures r.zoneVacancyThreshold == VacancyThreshold(floorThresh, r.ceilingThreshold, vacancyThresholdPer)
    ensures r.peakDetectionFloor == floorThresh && r.peakVariationTolerance == DefaultPeakVariationTolerance
    ensures BothVacant(r) && r.pplCount == 0
  {
    AfterClearData(Configured(floorThresh, floorToCeiling, vacancyThresholdPer))
  }

  /** The constructor as written: it never assigns the count, so the count
      starts at whatever `leftover` the object's storage held (zero only for
      an object in static storage). Everything else is as intended. */
  function CounterConstructedAsWritten(floorThresh: int, floorToCeiling: int, vacancyThresholdPer: UInt8,
                                       leftover: int): (r: CounterState)
    ensures r.Valid() && r.pplCount == leftover
    ensures r.(pplCount := 0) == CounterConstructed(floorThresh, floorToCeiling, vacancyThresholdPer)
  {
    AfterClearData(Configured(floorThresh, floorToCeiling, vacancyThresholdPer).(pplCount := leftover))
  }

  /** The fields as the constructor sets them before its closing `clearData`
      (the path tracker's distances, which C leaves unassigned, start at 0;
      none is read before `updatePathTracker` writes it). */
  function Configured(floorThresh: int, floorToCeiling: int, vacancyThresholdPer: UInt8): (r: CounterState)
    ensures r.Valid()
  {
    var detector := PeakDetection.Constructed(DetectorFloor(floorThresh, floorToCeiling, vacancyThresholdPer));
    var ceiling := floorThresh - Abs(floorToCeiling);
    var zeroed := PathTracker([PeakData(NoZone, 0), PeakData(NoZone, 0)], PeakData(NoZone, 0), 0, false);
    CounterState(
      detector, detector, zeroed, InitialData,
      VacancyThreshold(floorThresh, ceiling, vacancyThresholdPer), ceiling, floorThresh,
      DefaultPeakVariationTolerance, floorThresh, 0,
      Vacant, Vacant, Vacant, Vacant)
  }

  class PeopleCounter {
    var pathTracker: PathTracker
    var peopleCounterData: PeopleCounterData
    const leftZDistances: PeakDetector
    const rightZDistances: PeakDetector
    var zoneVacancyThreshold: int
    var ceilingThreshold: int
    var floorThreshold: int
    var peakVariationTolerance: UInt8
    var peakDetectionFloor: int
    var pplCount: int
    var leftZoneStatus: ZoneStatus
    var previousLeftZoneStatus: ZoneStatus
    var rightZoneStatus: ZoneStatus
    var previousRightZoneStatus: ZoneStatus

    ghost function Model(): CounterState
      reads this, leftZDistances, rightZDistances, leftZDistances.distances, rightZDistances.distances
    {
      CounterState(leftZDistances.Model(), rightZDistances.Model(), pathTracker, peopleCounterData,
                   zoneVacancyThreshold, ceilingThreshold, floorThreshold, peakVariationTolerance,
                   peakDetectionFloor, pplCount,
                   leftZoneStatus, previousLeftZoneStatus, rightZoneStatus, previousRightZoneStatus)
    }

    /** Two separate detectors over two separate arrays, both valid. */
    ghost predicate Valid()
      reads this, leftZDistances, rightZDistances, leftZDistances.distances, rightZDistances.distances
    {
      leftZDistances != rightZDistances && leftZDistances.distances != rightZDistances.distances
      && leftZDistances.Valid() && rightZDistances.Valid()
    }

    constructor (floorThresh: int, floorToCeiling: int, vacancyThresholdPer: UInt8)
      ensures Valid()
      ensures Model() == CounterConstructed(floorThresh, floorToCeiling, vacancyThresholdPer)
    {
      var detectorFloor := floorThresh + TruncDiv(floorToCeiling * vacancyThresholdPer as int, 100);
      leftZDistances := new PeakDetector(detectorFloor);
      rightZDistances := new PeakDetector(detectorFloor);
      pathTracker := PathTracker([PeakData(NoZone, 0), PeakData(NoZone, 0)], PeakData(NoZone, 0), 0, false);
      peopleCounterData := InitialData;
      pplCount := 0;
      var ceiling := floorThresh - Abs(floorToCeiling);
      ceilingThreshold := ceiling;
      floorThreshold := floorThresh;
      peakDetectionFloor := floorThresh;
      peakVariationTolerance := DefaultPeakVariationTolerance;
      // `setVacancyThreshold`, on the thresholds just set
      zoneVacancyThreshold := floorThresh + TruncDiv((ceiling - floorThresh) * vacancyThresholdPer as int, 100);
      leftZoneStatus := Vacant;
      rightZoneStatus := Vacant;
      previousLeftZoneStatus := Vacant;
      previousRightZoneStatus := Vacant;
      new;
      ClearData();
    }

    method GetZoneStatus(zone: Zone) returns (status: ZoneStatus)
      ensures status == Status(Model(), zone)
    {
      status := if zone == Left then leftZoneStatus else rightZoneStatus;
    }

    method GetPeopleCount() returns (count: int)
      ensures count == Model().pplCount
    {
      count := pplCount;
    }

    /** Both detectors take the new floor. */
    method SetPeakDetectorFloor(floor: int)
      requires Valid()
      modifies this, leftZDistances, rightZDistances
      ensures Valid()
      ensures Model() == old(Model()).(peakDetectionFloor := floor,
                                       left := old(Model()).left.(floorThreshold := floor),
                                       right := old(Model()).right.(floorThreshold := floor))
    {
      peakDetectionFloor := floor;
      leftZDistances.SetFloor(peakDetectionFloor);
      rightZDistances.SetFloor(peakDetectionFloor);
    }

    /** Both detectors take the width, capped at 16. A width of 0, or one
        below what a detector has already buffered, is excluded (see
        `PeakDetector.SetWindowSize`). */
    method SetPeakDetectorWindowSize(window: UInt8)
      requires Valid()
      requires 1 <= window
      requires leftZDistances.bufferCount <= Min(window, MaxWindowSize as int)
      requires rightZDistances.bufferCount <= Min(window, MaxWindowSize as int)
      modifies leftZDistances, rightZDistances
      ensures Valid()
      ensures Model() == old(Model()).(left := old(Model()).left.(window := Min(window, MaxWindowSize as int) as UInt8),
                                       right := old(Model()).right.(window := Min(window, MaxWindowSize as int) as UInt8))
    {
      var width := Min(window, MaxWindowSize as int) as UInt8;
      leftZDistances.SetWindowSize(width);
      rightZDistances.SetWindowSize(width);
    }

    method SetPeakDetectorDispersionTolerance(tol: UInt8)
      requires Valid()
      modifies leftZDistances, rightZDistances
      ensures Valid()
      ensures Model() == old(Model()).(left := old(Model()).left.(tolerance := tol),
                                       right := old(Model()).right.(tolerance := tol))
    {
      leftZDistances.SetTolerance(tol);
      rightZDistances.SetTolerance(tol);
    }

    method SetPeakVariationTolerance(peakVariationTol: UInt8)
      modifies this
      ensures Model() == old(Model()).(peakVariationTolerance := peakVariationTol)
    {
      peakVariationTolerance := peakVariationTol;
    }

    method SetVacancyThreshold(percent: UInt8)
      modifies this
      ensures Model() == old(Model()).(zoneVacancyThreshold :=
                           VacancyThreshold(old(floorThreshold), old(ceilingThreshold), percent))
    {
      zoneVacancyThreshold := floorThreshold + TruncDiv((ceilingThreshold - floorThreshold) * percent as int, 100);
    }

    method AddData(distance: int, zone: Zone)
      requires Valid()
      modifies this, leftZDistances, rightZDistances, leftZDistances.distances, rightZDistances.distances
      ensures Valid()
      ensures Model() == AfterAddData(old(Model()), distance, zone)
    {
      if distance >= ceilingThreshold && distance <= floorThreshold {
        UpdateStatus(distance, zone);
        UpdatePeaks(distance, zone);
        ghost var s2 := Model();
        UpdatePeopleCounterData(zone);
        ghost var s3 := Model();
        assert s3 == AfterUpdatePeopleCounterData(s2, zone);
        if leftZoneStatus == Vacant && rightZoneStatus == Vacant {
          ProcessPeopleCounterData();
        }
      }
    }

    /** The status switch of `addData`, for a sample inside the range. */
    method UpdateStatus(distance: int, zone: Zone)
      requires Valid()
      modifies this, leftZDistances, rightZDistances, leftZDistances.distances, rightZDistances.distances
      ensures Valid()
      ensures Model() == AfterStatusUpdate(old(Model()), distance, zone)
    {
      SavePreviousStatus(zone);
      var status := GetZoneStatus(zone);
      if status == Vacant {
        var leftStatus := GetZoneStatus(Left);
        var rightStatus := GetZoneStatus(Right);
        if leftStatus == Vacant && rightStatus == Vacant {
          ClearData();
        }
        if distance < zoneVacancyThreshold {
          SetZoneStatus(zone, Occupied);
        }
      } else if distance >= zoneVacancyThreshold {
        SetZoneStatus(zone, Vacant);
      }
    }

    /** The peak part of `addData`: an occupied zone's detector takes the
        sample and a peak goes to the path tracker. */
    method UpdatePeaks(distance: int, zone: Zone)
      requires Valid()
      modifies this, leftZDistances, rightZDistances, leftZDistances.distances, rightZDistances.distances
      ensures Valid()
      ensures Model() == AfterPeakUpdate(old(Model()), distance, zone)
    {
      var status := GetZoneStatus(zone);
      if status == Occupied {
        AddZDistance(zone, distance);
        var peak := DetectPeak(zone);
        if peak {
          UpdatePathTracker(zone);
        }
      }
    }

    method AddZDistance(zone: Zone, distance: int)
      requires Valid()
      modifies leftZDistances, rightZDistances, leftZDistances.distances, rightZDistances.distances
      ensures Valid()
      ensures Model() == AfterAddZDistance(old(Model()), zone, distance)
    {
      if zone == Left {
        leftZDistances.AddDistance(distance);
      } else {
        rightZDistances.AddDistance(distance);
      }
    }

    method DetectPeak(zone: Zone) returns (peak: bool)
      requires Valid()
      ensures peak == PeakPresent(Detector(Model(), zone))
    {
      if zone == Left {
        peak := leftZDistances.DetectPeak();
      } else {
        peak := rightZDistances.DetectPeak();
      }
    }

    method GetLastPeak(zone: Zone) returns (peak: int)
      ensures peak == Detector(Model(), zone).lastPeak
    {
      peak := if zone == Left then leftZDistances.lastPeak else rightZDistances.lastPeak;
    }

    method SetZoneStatus(zone: Zone, status: ZoneStatus)
      modifies this
      ensures Model() == AfterSetZoneStatus(old(Model()), zone, status)
    {
      if zone == Left {
        leftZoneStatus := status;
      } else {
        rightZoneStatus := status;
      }
    }

    method SavePreviousStatus(zone: Zone)
      modifies this
      ensures Model() == AfterSavePreviousStatus(old(Model()), zone)
    {
      if zone == Left {
        previousLeftZoneStatus := leftZoneStatus;
      } else {
        previousRightZoneStatus := rightZoneStatus;
      }
    }

    method InitializePeopleCounterData()
      modifies this
      ensures Model() == AfterInitializePeopleCounterData(old(Model()))
    {
      peopleCounterData := peopleCounterData.(firstPeakZone := NoZone, lastPeakZone := NoZone,
                                              zoneOverlap := false, marginalChange := 0, numPeaks := 0);
    }

    method ClearPathBuffer()
      modifies this
      ensures Model() == old(Model()).(tracker := ClearedPathBuffer(old(pathTracker)))
    {
      var w := pathTracker.window;
      pathTracker := pathTracker.(window := [w[0].(zone := NoZone), w[1].(zone := NoZone)],
                                  bufferCount := 0, bufferFull := false);
    }

    method InitializePathTracker()
      modifies this
      ensures Model() == old(Model()).(tracker := InitializedPathTracker(old(pathTracker)))
    {
      ClearPathBuffer();
      pathTracker := pathTracker.(preWindow := pathTracker.preWindow.(zone := NoZone));
    }

    method UpdatePathTracker(zone: Zone)
      modifies this
      ensures Model() == AfterUpdatePathTracker(old(Model()), zone)
    {
      var peak := GetLastPeak(zone);
      var event := if zone == Left then LeftZone else RightZone;
      if pathTracker.bufferCount == 0 {
        pathTracker := pathTracker.(bufferCount := 1);
      } else if pathTracker.bufferCount == 1 {
        if (pathTracker.window[0].zone == LeftZone && zone == Right)
          || (pathTracker.window[0].zone == RightZone && zone == Left)
        {
          pathTracker := pathTracker.(bufferFull := true, preWindow := PeakData(event, peak));
          pathTracker := pathTracker.(bufferCount := pathTracker.bufferCount + 1);
        } else {
          pathTracker := pathTracker.(preWindow := pathTracker.window[0]);
        }
      }
      pathTracker := pathTracker.(window := pathTracker.window[pathTracker.bufferCount - 1 := PeakData(event, peak)]);
    }

    method ProcessPathTracker()
      modifies this
      ensures Model() == old(Model()).(data := ProcessedPathTracker(old(pathTracker), old(peopleCounterData), old(peakVariationTolerance)))
    {
      var w0, w1 := pathTracker.window[0], pathTracker.window[1];
      if w0.zone == LeftZone {
        if w1.zone == RightZone {
          if Abs(w0.distance - w1.distance) <= peakVariationTolerance as int {
            peopleCounterData := peopleCounterData.(marginalChange := peopleCounterData.marginalChange + 1);
            peopleCounterData := peopleCounterData.(numPeaks := U8Add(peopleCounterData.numPeaks, 2));
          } else {
            peopleCounterData := peopleCounterData.(numPeaks := U8Add(peopleCounterData.numPeaks, 1));
          }
        } else if w1.zone == NoZone {
          if pathTracker.preWindow.zone == RightZone {
            peopleCounterData := peopleCounterData.(marginalChange := peopleCounterData.marginalChange - 1);
            peopleCounterData := peopleCounterData.(numPeaks := U8Add(peopleCounterData.numPeaks, 1));
          }
        }
      } else if w0.zone == RightZone {
        if w1.zone == LeftZone {
          if Abs(w0.distance - w1.distance) <= peakVariationTolerance as int {
            peopleCounterData := peopleCounterData.(marginalChange := peopleCounterData.marginalChange - 1);
            peopleCounterData := peopleCounterData.(numPeaks := U8Add(peopleCounterData.numPeaks, 2));
          } else {
            peopleCounterData := peopleCounterData.(numPeaks := U8Add(peopleCounterData.numPeaks, 1));
          }
        } else if w1.zone == NoZone {
          if pathTracker.preWindow.zone == LeftZone {
            peopleCounterData := peopleCounterData.(marginalChange := peopleCounterData.marginalChange + 1);
            peopleCounterData := peopleCounterData.(numPeaks := U8Add(peopleCounterData.numPeaks, 1));
          }
        }
      }
    }

    method NotePeaks(zone: Zone)
      requires Valid()
      modifies this
      ensures Model() == old(Model()).(data := NotedPeaks(old(Model()), zone))
    {
      if zone == Left {
        if leftZDistances.numberOfPeaks == 1 && rightZDistances.numberOfPeaks == 0 {
          peopleCounterData := peopleCounterData.(firstPeakZone := LeftZone);
        }
      } else {
        if leftZDistances.numberOfPeaks == 0 && rightZDistances.numberOfPeaks == 1 {
          peopleCounterData := peopleCounterData.(firstPeakZone := RightZone);
        }
      }
      var peak := DetectPeak(zone);
      if peak {
        peopleCounterData := peopleCounterData.(lastPeakZone := if zone == Left then LeftZone else RightZone);
      }
      if leftZoneStatus == Occupied && rightZoneStatus == Occupied {
        peopleCounterData := peopleCounterData.(zoneOverlap := true);
      }
    }

    method UpdatePeopleCounterData(zone: Zone)
      requires Valid()
      modifies this
      ensures Valid()
      ensures Model() == AfterUpdatePeopleCounterData(old(Model()), zone)
    {
      NotePeaks(zone);
      if pathTracker.bufferFull {
        ProcessPathTracker();
        ClearPathBuffer();
      }
    }

    method ProcessPeopleCounterData()
      modifies this
      ensures Model() == AfterProcessPeopleCounterData(old(Model()))
    {
      if !pathTracker.bufferFull {
        ProcessPathTracker();
      }
      if peopleCounterData.zoneOverlap {
        var multiplier := 1;
        if peopleCounterData.firstPeakZone == peopleCounterData.lastPeakZone {
          if peopleCounterData.numPeaks % 2 == 1 {
            multiplier := -1;
          }
        }
        pplCount := pplCount + multiplier * peopleCounterData.marginalChange;
      }
    }

    method ClearData()
      requires Valid()
      modifies this, leftZDistances, rightZDistances, leftZDistances.distances, rightZDistances.distances
      ensures Valid()
      ensures Model() == AfterClearData(old(Model()))
    {
      InitializePathTracker();
      InitializePeopleCounterData();
      leftZDistances.Reset();
      rightZDistances.Reset();
    }
  }
}
