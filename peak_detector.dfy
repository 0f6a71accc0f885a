// The per-zone peak detector: a sliding window of at most 16 distance
// samples in which a "peak" is a valley (the closest approach of an object
// passing under the sensor).
//
// `DetectorState` is the value of a detector's fields and the `After*`
// functions say what each operation of the detector does to it; the class
// `PeakDetector` holds the same fields (the window in a fixed 16-slot array)
// and updates them in place, and each of its methods is proved to leave
// `Model() == After*(old(Model()), ...)`.

module PeakDetection {
  import opened CArith

  const DefaultWindowDataWidth: UInt8 := 5
  const MaxWindowSize: UInt8 := 16
  const DefaultDispersionTolerance: UInt8 := 10

  /** The fields of a detector. `distances` always has 16 slots, of which the
      first `bufferCount` hold samples; `window` is the configured width. */
  datatype DetectorState = DetectorState(
    largestPeak: int,
    secondLastPeak: int,
    distances: seq<int>,
    numberOfPeaks: int,
    bufferCount: int,
    lastPeak: int,
    tolerance: UInt8,
    window: UInt8,
    floorThreshold: int)
  {
    /** Every index the detector touches lies inside the 16 slots. */
    ghost predicate Valid()
    {
      |distances| == MaxWindowSize as int
      && 1 <= window <= MaxWindowSize
      && 0 <= bufferCount <= window as int
    }
  }

  /** The samples currently buffered, oldest first. */
  function Buffer(s: DetectorState): (b: seq<int>)
    requires s.Valid()
    ensures |b| == s.bufferCount
  {
    s.distances[..s.bufferCount]
  }

  /** Sum of `d[i] - d[i-1]` for `i` from `lo` up to, not including, `hi`:
      the accumulation the peak test performs for each half of the window. */
  function SlopeSum(d: seq<int>, lo: nat, hi: nat): int
    requires 1 <= lo <= hi <= |d|
    decreases hi - lo
  {
    if hi == lo then 0 else SlopeSum(d, lo, hi - 1) + (d[hi - 1] - d[hi - 2])
  }

  /** The peak test on a full window `w`: the left half slopes down, the right
      half slopes up and the two slopes cancel to within `tol`. */
  predicate IsValley(w: seq<int>, tol: int)
    requires |w| >= 1
  {
    var leftSlope := SlopeSum(w, 1, |w| / 2 + 1);
    var rightSlope := SlopeSum(w, |w| / 2 + 1, |w|);
    Abs(leftSlope + rightSlope) <= tol && leftSlope < 0 && rightSlope > 0
  }

  /** `detectPeak`: only a full buffer can hold a peak. */
  predicate PeakPresent(s: DetectorState)
    requires s.Valid()
  {
    s.bufferCount == s.window as int && IsValley(s.distances[..s.window], s.tolerance as int)
  }

  /** The smallest element, found by scanning from the front as the detector
      does when it records a peak. */
  function SeqMin(w: seq<int>): (m: int)
    requires |w| >= 1
    ensures m in w
    ensures forall i :: 0 <= i < |w| ==> m <= w[i]
  {
    if |w| == 1 then w[0] else Min(w[|w| - 1], SeqMin(w[..|w| - 1]))
  }

  /** Book-keeping when a peak fires: the peak value is the minimum of all
      `window` slots, including the oldest. */
  function RecordPeak(s: DetectorState): (r: DetectorState)
    requires s.Valid()
    ensures r.Valid()
    ensures r.distances == s.distances && r.bufferCount == s.bufferCount
    ensures r.window == s.window && r.tolerance == s.tolerance && r.floorThreshold == s.floorThreshold
    ensures r.secondLastPeak == s.lastPeak
    ensures r.lastPeak in s.distances[..s.window]
    ensures forall i :: 0 <= i < s.window as int ==> r.lastPeak <= s.distances[i]
    ensures r.largestPeak == Min(r.lastPeak, s.largestPeak)
    ensures r.numberOfPeaks == s.numberOfPeaks + 1
  {
    var peak := SeqMin(s.distances[..s.window]);
    s.(secondLastPeak := s.lastPeak,
       lastPeak := peak,
       largestPeak := Min(peak, s.largestPeak),
       numberOfPeaks := s.numberOfPeaks + 1)
  }

  /** Storing an accepted sample: a full buffer shifts left by one and takes
      the sample last, otherwise the sample is appended. */
  function Appended(s: DetectorState, distance: int): (r: DetectorState)
    requires s.Valid()
    ensures r.Valid()
    ensures r.window == s.window && r.tolerance == s.tolerance && r.floorThreshold == s.floorThreshold
    ensures r.lastPeak == s.lastPeak && r.secondLastPeak == s.secondLastPeak
    ensures r.largestPeak == s.largestPeak && r.numberOfPeaks == s.numberOfPeaks
    ensures s.bufferCount == s.window as int ==>
      r.bufferCount == s.bufferCount && Buffer(r) == Buffer(s)[1..] + [distance]
    ensures s.bufferCount < s.window as int ==>
      r.bufferCount == s.bufferCount + 1 && Buffer(r) == Buffer(s) + [distance]
  {
    if s.bufferCount == s.window as int
    then s.(distances := s.distances[1..s.window] + [distance] + s.distances[s.window..])
    else s.(distances := s.distances[s.bufferCount := distance], bufferCount := s.bufferCount + 1)
  }

  /** `addDistance`. Besides keeping the buffer inside its 16 slots, the
      detector reports a peak after the call exactly when the call counted
      one. (What the call does to the buffer and to the peak records is
      stated by the lemmas after the class.) */
  function AfterAddDistance(s: DetectorState, distance: int): (r: DetectorState)
    requires s.Valid()
    ensures r.Valid()
    ensures r.window == s.window && r.tolerance == s.tolerance && r.floorThreshold == s.floorThreshold
    ensures PeakPresent(r) <==> r.numberOfPeaks == s.numberOfPeaks + 1
    ensures !PeakPresent(r) ==> r.numberOfPeaks == s.numberOfPeaks
  {
    var cleared := if PeakPresent(s) then s.(bufferCount := 0) else s;
    if distance > s.floorThreshold then
      cleared
    else
      var stored := Appended(cleared, distance);
      if PeakPresent(stored) then RecordPeak(stored) else stored
  }

  /** `reset`: the peak records return to the floor, the counters to zero and
      the first `window` slots are refilled with the floor. */
  function AfterReset(s: DetectorState): (r: DetectorState)
    requires s.Valid()
    ensures r.Valid() && !PeakPresent(r)
    ensures r.largestPeak == r.lastPeak == r.secondLastPeak == s.floorThreshold
    ensures r.bufferCount == 0 && r.numberOfPeaks == 0
    ensures r.window == s.window && r.tolerance == s.tolerance && r.floorThreshold == s.floorThreshold
  {
    s.(largestPeak := s.floorThreshold,
       lastPeak := s.floorThreshold,
       secondLastPeak := s.floorThreshold,
       bufferCount := 0,
       numberOfPeaks := 0,
       distances := seq(s.window, _ => s.floorThreshold) + s.distances[s.window..])
  }

  /** The width `setWindowSize` installs: at most `MAX_WINDOW_SIZE`. */
  function ClampedWindow(windowSize: UInt8): (w: UInt8)
    ensures w <= MaxWindowSize
    ensures windowSize <= MaxWindowSize ==> w == windowSize
    ensures windowSize > MaxWindowSize ==> w == MaxWindowSize
  {
    if windowSize <= MaxWindowSize then windowSize else MaxWindowSize
  }

  /** A detector as its constructor leaves it: default width and tolerance,
      then `reset`. */
  function Constructed(floorValue: int): (r: DetectorState)
    ensures r.Valid()
    ensures r.window == DefaultWindowDataWidth && r.tolerance == DefaultDispersionTolerance
    ensures r.floorThreshold == floorValue
    ensures r.bufferCount == 0 && r.numberOfPeaks == 0
    ensures r.largestPeak == r.lastPeak == r.secondLastPeak == floorValue
  {
    AfterReset(DetectorState(0, 0, seq(MaxWindowSize, _ => 0), 0, 0, 0,
                             DefaultDispersionTolerance, DefaultWindowDataWidth, floorValue))
  }

  class PeakDetector {
    var largestPeak: int
    var secondLastPeak: int
    const distances: array<int>
    var numberOfPeaks: int
    var bufferCount: int
    var lastPeak: int
    var tolerance: UInt8
    var window: UInt8
    var floorThreshold: int

    ghost function Model(): DetectorState
      reads this, distances
    {
      DetectorState(largestPeak, secondLastPeak, distances[..], numberOfPeaks,
                    bufferCount, lastPeak, tolerance, window, floorThreshold)
    }

    ghost predicate Valid()
      reads this, distances
    {
      Model().Valid()
    }

    constructor (floorValue: int)
      ensures Valid() && fresh(distances)
      ensures Model() == Constructed(floorValue)
    {
      floorThreshold := floorValue;
      window := DefaultWindowDataWidth;
      tolerance := DefaultDispersionTolerance;
      distances := new int[MaxWindowSize](_ => 0);
      largestPeak, secondLastPeak, lastPeak := 0, 0, 0;
      numberOfPeaks, bufferCount := 0, 0;
      new;
      Reset();
    }

    method SetFloor(floorValue: int)
      requires Valid()
      modifies this
      ensures Valid()
      ensures Model() == old(Model()).(floorThreshold := floorValue)
    {
      floorThreshold := floorValue;
    }

    /** A width of 0 would make the next sample write before the first slot,
        and a width below the number of buffered samples would let later
        samples run past the array: both are excluded. */
    method SetWindowSize(windowSize: UInt8)
      requires Valid()
      requires 1 <= windowSize
      requires bufferCount <= ClampedWindow(windowSize) as int
      modifies this
      ensures Valid()
      ensures Model() == old(Model()).(window := ClampedWindow(windowSize))
    {
      window := if windowSize <= MaxWindowSize then windowSize else MaxWindowSize;
    }

    method SetTolerance(tol: UInt8)
      requires Valid()
      modifies this
      ensures Valid()
      ensures Model() == old(Model()).(tolerance := tol)
    {
      tolerance := tol;
    }

    /** The closest approach among the peaks since the last reset. */
    method GetLargestPeak() returns (peak: int)
      ensures peak == Model().largestPeak
    {
      peak := largestPeak;
    }

    method GetNumberOfPeaks() returns (count: int)
      ensures count == Model().numberOfPeaks
    {
      count := numberOfPeaks;
    }

    method GetLastPeak() returns (peak: int)
      ensures peak == Model().lastPeak
    {
      peak := lastPeak;
    }

    method GetSecondLastPeak() returns (peak: int)
      ensures peak == Model().secondLastPeak
    {
      peak := secondLastPeak;
    }

    /** The peak test, with the two slope sums accumulated as in the source. */
    method DetectPeak() returns (peak: bool)
      requires Valid()
      ensures peak == PeakPresent(Model())
    {
      peak := false;
      if bufferCount == window as int {
        ghost var w := distances[..window];
        var half := window as int / 2;
        var leftSlope := 0;
        var i := 1;
        while i <= half
          invariant 1 <= i <= half + 1
          invariant leftSlope == SlopeSum(w, 1, i)
        {
          leftSlope := leftSlope + distances[i] - distances[i - 1];
          i := i + 1;
        }
        var rightSlope := 0;
        i := half + 1;
        while i < window as int
          invariant half + 1 <= i <= window as int
          invariant rightSlope == SlopeSum(w, half + 1, i)
        {
          rightSlope := rightSlope + distances[i] - distances[i - 1];
          i := i + 1;
        }
        var slope := leftSlope + rightSlope;
        if Abs(slope) <= tolerance as int {
          if leftSlope < 0 && rightSlope > 0 {
            peak := true;
          }
        }
      }
    }

    /** The loop of the full-buffer case: slots 1..window-1 move one place
        left; the last slot is overwritten by the caller. */
    method ShiftLeft()
      requires Valid()
      modifies distances
      ensures distances[..] == old(distances[1..window]) + [old(distances[window - 1])] + old(distances[window..])
    {
      var i := 0;
      while i < window as int - 1
        invariant 0 <= i <= window as int - 1
        invariant forall k :: 0 <= k < i ==> distances[k] == old(distances[k + 1])
        invariant forall k :: i <= k < distances.Length ==> distances[k] == old(distances[k])
      {
        distances[i] := distances[i + 1];
        i := i + 1;
      }
    }

    /** The scan for the peak value: the minimum of all `window` slots,
        starting from slot 0. */
    method WindowMinimum() returns (peak: int)
      requires Valid()
      ensures peak == SeqMin(distances[..window])
    {
      peak := distances[0];
      var i := 0;
      while i < window as int - 1
        invariant 0 <= i <= window as int - 1
        invariant peak == SeqMin(distances[..i + 1])
      {
        assert distances[..i + 2][..i + 1] == distances[..i + 1];
        peak := if distances[i + 1] < peak then distances[i + 1] else peak;
        i := i + 1;
      }
      assert distances[..window] == distances[..i + 1];
    }

    method Append(distance: int)
      requires Valid()
      modifies this, distances
      ensures Valid()
      ensures Model() == Appended(old(Model()), distance)
    {
      if bufferCount == window as int {
        ShiftLeft();
      } else {
        bufferCount := bufferCount + 1;
      }
      distances[bufferCount - 1] := distance;
    }

    /** The book-keeping when a peak fires. */
    method Record()
      requires Valid()
      modifies this
      ensures Valid()
      ensures Model() == RecordPeak(old(Model()))
    {
      var peak := WindowMinimum();
      secondLastPeak := lastPeak;
      lastPeak := peak;
      largestPeak := Min(peak, largestPeak);
      numberOfPeaks := numberOfPeaks + 1;
    }

    method AddDistance(distance: int)
      requires Valid()
      modifies this, distances
      ensures Valid()
      ensures Model() == AfterAddDistance(old(Model()), distance)
    {
      ghost var s0 := Model();
      var pending := DetectPeak();
      if pending {
        bufferCount := 0;
      }
      ghost var s1 := Model();
      assert s1 == if PeakPresent(s0) then s0.(bufferCount := 0) else s0;
      if distance <= floorThreshold {
        Append(distance);
        ghost var s2 := Model();
        assert s2 == Appended(s1, distance);
        var found := DetectPeak();
        if found {
          Record();
        }
      }
    }

    method Reset()
      requires Valid()
      modifies this, distances
      ensures Valid()
      ensures Model() == AfterReset(old(Model()))
    {
      assert distances.Length == MaxWindowSize as int;
      largestPeak := floorThreshold;
      lastPeak := floorThreshold;
      secondLastPeak := floorThreshold;
      bufferCount := 0;
      numberOfPeaks := 0;
      var floor, width := floorThreshold, window as int;
      var i := 0;
      while i < width
        modifies distances
        invariant distances.Length == MaxWindowSize as int
        invariant 0 <= i <= width
        invariant forall k :: 0 <= k < i ==> distances[k] == floor
        invariant forall k :: i <= k < distances.Length ==> distances[k] == old(distances[k])
      {
        distances[i] := floor;
        i := i + 1;
      }
      assert distances[..] == seq(width, _ => floor) + old(distances[..])[width..];
    }
  }
}
