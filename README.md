# People counter over a doorway: a Dafny model

The firmware counts people passing through a doorway. Two downward-facing
distance sensors, one over each half of the doorway (the left and the right
zone), deliver readings one at a time to a `PeopleCounter`:

- A reading decides whether its zone is occupied.
- It feeds that zone's `PeakDetector`. The detector is a sliding window of up
  to 16 samples, and it reports a "peak" when the window holds a valley: an
  object's closest approach under the sensor.
- Peaks go to a two-slot path tracker. A pair of peaks in opposite zones at
  matching distances counts as a crossing.
- When both zones fall vacant again, the episode's signed net crossings are
  added to the count. This happens only if both zones were occupied at once
  during the episode.

The model covers the Mark3.3 C++ sources of the two classes:

- `c_arith.dfy` (module `CArith`) holds the C arithmetic the code relies on:
  `uint8_t`, `abs`, the `min` macro, truncating `/`, and `uint8_t` wrap-around.
- `peak_detector.dfy` (module `PeakDetection`) holds the detector.
  - `DetectorState` is the value of its fields.
  - `After*` functions say what each operation does to that value.
  - The class `PeakDetector` keeps the fields, with the 16 slots in an
    `array<int>`.
  - Every method is proved to leave `Model() == After*(old(Model()), ...)`.
    The shift loop, the slope loops of the peak test and the minimum scan are
    `while` loops with their invariants.
- `people_counter.dfy` (module `PeopleCounting`) holds the counter, modelled
  the same way.
  - The class `PeopleCounter` owns two `PeakDetector` objects, and its methods
    call theirs.
  - Each method is tied to an `After*` function on `CounterState`.
- `peak_detector_properties.dfy` and `people_counter_properties.dfy` hold the
  lemmas about the value models:
  - what one sample does;
  - that an episode starts afresh;
  - that the counter treats both zones alike, so a mirrored stream gives the
    negated count;
  - that the count is only ever added to.
- `peak_detector_tests.dfy` and `people_counter_tests.dfy` state the unit-test
  programs' cases as lemmas over any suitably configured state.
  - `PkNext` describes the detector on whole windows, for any width, floor
    and tolerance. `FeedTracks` proves that the slot-level detector follows
    it under every such setting.
  - The longer detector runs (`detector_run_*.dfy`) are stated on `PkNext`
    at the test settings (width 5 or 10, floor 1800, tolerance 10).
- `people_counter_scenarios.dfy` and `scenario_*.dfy` state the walk-through
  scenarios of the counter's test program.
  - Each one is proved instant by instant, for any counter that has the test
    thresholds and finds both zones vacant.

## Model

| member | source | states |
|---|---|---|
| CArith.Abs | Mark3.3/src/PeopleCounter/PeopleCounter.cpp:18 | `abs`: non-negative, and equal to the argument or its negation |
| CArith.Min | Mark3.3/src/PeopleCounter/PeopleCounter.h:15 | the `min` macro: at most both arguments and equal to one of them |
| CArith.TruncDiv | Mark3.3/src/PeopleCounter/PeopleCounter.cpp:93-95 | C `int` division: the quotient rounds toward zero, so the remainder takes the dividend's sign and is smaller than the divisor in magnitude |
| CArith.U8Add | Mark3.3/src/PeopleCounter/PeopleCounter.cpp:310-311 | adding to a `uint8_t` wraps modulo 256, keeps the parity of the true sum, and is exact below 256 |
| PeakDetection.SeqMin | Mark3.3/src/PeakDetector/PeakDetector.cpp:98-102 | the value found by the scan is an element of the window and no element is smaller |
| PeakDetection.RecordPeak | Mark3.3/src/PeakDetector/PeakDetector.cpp:96-107 | on a peak: the old last peak becomes the second last, the new last peak is the minimum of the `window` slots, the largest peak becomes a running minimum, and the peak count grows by one; the buffer is untouched |
| PeakDetection.Appended | Mark3.3/src/PeakDetector/PeakDetector.cpp:80-94 | an accepted sample shifts a full buffer left and goes last, or else is appended; the peak records are untouched |
| PeakDetection.AfterAddDistance | Mark3.3/src/PeakDetector/PeakDetector.cpp:71-109 | `addDistance` keeps the buffer inside the 16 slots and the settings unchanged, and a peak is reported exactly when the peak count grows |
| PeakDetection.AfterReset | Mark3.3/src/PeakDetector/PeakDetector.cpp:144-155 | `reset`: the three peak records go back to the floor, the counters go to zero, and no peak is pending |
| PeakDetection.ClampedWindow | Mark3.3/src/PeakDetector/PeakDetector.cpp:33-36 | a width above `MAX_WINDOW_SIZE` (16) is cut to 16; any other is kept |
| PeakDetection.Constructed | Mark3.3/src/PeakDetector/PeakDetector.cpp:16-22 | a new detector has width 5, tolerance 10, the given floor, an empty buffer, no peaks, and all peak records at the floor |
| PeakDetection.PeakDetector.constructor | Mark3.3/src/PeakDetector/PeakDetector.cpp:16-22 | the new object's fields are `Constructed(floorValue)`, over a fresh 16-slot array |
| PeakDetection.PeakDetector.SetFloor | Mark3.3/src/PeakDetector/PeakDetector.cpp:25-28 | only the floor changes |
| PeakDetection.PeakDetector.SetWindowSize | Mark3.3/src/PeakDetector/PeakDetector.cpp:33-36 | only the width changes, to the clamped value |
| PeakDetection.PeakDetector.SetTolerance | Mark3.3/src/PeakDetector/PeakDetector.cpp:41-44 | only the tolerance changes |
| PeakDetection.PeakDetector.GetLargestPeak | Mark3.3/src/PeakDetector/PeakDetector.cpp:47-50 | returns the largest-peak record |
| PeakDetection.PeakDetector.GetNumberOfPeaks | Mark3.3/src/PeakDetector/PeakDetector.cpp:53-56 | returns the peak count |
| PeakDetection.PeakDetector.GetLastPeak | Mark3.3/src/PeakDetector/PeakDetector.cpp:59-62 | returns the last peak |
| PeakDetection.PeakDetector.GetSecondLastPeak | Mark3.3/src/PeakDetector/PeakDetector.cpp:65-68 | returns the second last peak |
| PeakDetection.PeakDetector.DetectPeak | Mark3.3/src/PeakDetector/PeakDetector.cpp:112-141 | the two slope loops decide exactly `PeakPresent`: a full buffer whose halves fall and then rise, with the total slope within the tolerance |
| PeakDetection.PeakDetector.ShiftLeft | Mark3.3/src/PeakDetector/PeakDetector.cpp:83-86 | the loop moves slots 1..window-1 one place down and leaves the rest |
| PeakDetection.PeakDetector.WindowMinimum | Mark3.3/src/PeakDetector/PeakDetector.cpp:98-102 | the scan returns the minimum of all `window` slots |
| PeakDetection.PeakDetector.Append | Mark3.3/src/PeakDetector/PeakDetector.cpp:80-94 | stores an accepted sample as `Appended` says |
| PeakDetection.PeakDetector.Record | Mark3.3/src/PeakDetector/PeakDetector.cpp:96-107 | records a peak as `RecordPeak` says |
| PeakDetection.PeakDetector.AddDistance | Mark3.3/src/PeakDetector/PeakDetector.cpp:71-109 | leaves the fields at `AfterAddDistance` of the old ones |
| PeakDetection.PeakDetector.Reset | Mark3.3/src/PeakDetector/PeakDetector.cpp:144-155 | leaves the fields at `AfterReset` of the old ones, the loop having refilled the window with the floor |
| PeakDetectorProperties.SlopesTelescope | Mark3.3/src/PeakDetector/PeakDetector.cpp:117-128 | each accumulated slope equals the difference of its end samples |
| PeakDetectorProperties.ValleyByEndpoints | Mark3.3/src/PeakDetector/PeakDetector.cpp:112-141 | the peak test holds iff the middle sample is below the first, the last is above the middle, and the first and last differ by at most the tolerance |
| PeakDetectorProperties.ValleyNeedsThreeSamples | Mark3.3/src/PeakDetector/PeakDetector.cpp:114-138 | widths 1 and 2 never report a peak |
| PeakDetectorProperties.MonotoneWindowIsNoValley | Mark3.3/src/PeakDetector/PeakDetector.cpp:112-141 | a rising or a falling window never reports a peak |
| PeakDetectorProperties.AddDistanceRejects | Mark3.3/src/PeakDetector/PeakDetector.cpp:73-78 | a sample above the floor changes nothing, except that a pending peak empties the buffer |
| PeakDetectorProperties.AddDistanceStores | Mark3.3/src/PeakDetector/PeakDetector.cpp:73-94 | an accepted sample ends up last in the buffer: after the old samples, or after all but the oldest when the buffer was full, or alone after a pending peak |
| PeakDetectorProperties.AddDistanceRecordsPeaks | Mark3.3/src/PeakDetector/PeakDetector.cpp:96-107 | a new peak shifts last into second last, sets last to the window minimum, and never raises the largest peak; without a peak the records stay |
| PeakDetectorProperties.ResetFillsWindow | Mark3.3/src/PeakDetector/PeakDetector.cpp:151-154 | `reset` writes the floor into the first `window` slots and leaves the others |
| PeakDetectorProperties.ResetIdempotent | Mark3.3/src/PeakDetector/PeakDetector.cpp:144-155 | two resets are one |
| PeakDetectorProperties.Feed | Mark3.3/src/PeakDetector/PeakDetector.cpp:71-109 | feeding samples one by one keeps the detector valid and its settings unchanged |
| PeakDetectorProperties.FeedConcat | Mark3.3/src/PeakDetector/PeakDetector.cpp:71-109 | feeding two lists in turn is feeding their concatenation |
| PeakDetectorProperties.FeedAppends | Mark3.3/src/PeakDetector/PeakDetector.cpp:80-94 | samples that do not fill the buffer are appended, and no peak is reported meanwhile |
| PeakDetectorProperties.FeedFills | Mark3.3/src/PeakDetector/PeakDetector.cpp:71-107 | from an empty buffer or a pending peak, `window` accepted samples fill it, and a peak is reported iff they form a valley, with the records set from their minimum |
| PeakDetectorProperties.FeedFillsAllButLast | Mark3.3/src/PeakDetector/PeakDetector.cpp:71-107 | fewer samples than the width leave exactly those samples buffered and no peak |
| PeakDetectorProperties.SlideStep | Mark3.3/src/PeakDetector/PeakDetector.cpp:80-107 | a sample sliding through a full buffer without a pending peak drops the oldest, and reports a peak iff the new window is a valley |
| PeakDetectorProperties.CountAfterStoresAsWritten | Mark3.3/src/PeakDetector/PeakDetector.cpp:80-94 | as written, a buffer count above the width grows by one with every accepted sample |
| PeakDetectorProperties.StoreCountAsWritten | Mark3.3/src/PeakDetector/PeakDetector.cpp:80-94 | on every state the model admits, the as-written count rule gives the count `addDistance` leaves after a sample at or below the floor with no peak pending, and never passes the width |
| PeakDetectorProperties.ZeroWidthWritesBeforeBuffer | Mark3.3/src/PeakDetector/PeakDetector.cpp:33-36 | width 0 sends the first sample to slot -1 |
| PeakDetectorProperties.ShrunkWidthOverrunsBuffer | Mark3.3/src/PeakDetector/PeakDetector.cpp:80-94 | a 5-sample buffer cut to width 2 sends the 12th later sample to slot 16, past the array |
| PeakDetectorTests.ResetEstablishesTestState | Mark3.3/src/PeakDetector/PeakDetectorUnitTests/PeakDetectorUnitTests.cpp:83 | the `reset` before each test case leaves an empty buffer and all records at the floor 1800 |
| PeakDetectorTests.TwoMinimaWindowFive | Mark3.3/src/PeakDetector/PeakDetectorUnitTests/PeakDetectorUnitTests.cpp:79-91 | test case 1: largest peak 8, two peaks, last 8, second last 1670 |
| PeakDetectorTests.FirstOfTwoMinima | Mark3.3/src/PeakDetector/PeakDetectorUnitTests/PeakDetectorUnitTests.cpp:85-86 | the first five samples of test case 1 report one peak at 1670 |
| PeakDetectorTests.SecondOfTwoMinima | Mark3.3/src/PeakDetector/PeakDetectorUnitTests/PeakDetectorUnitTests.cpp:85-86 | the last five samples of test case 1 restart the window and report a second peak at 8 |
| PeakDetectorTests.MinimumAtTolerance | Mark3.3/src/PeakDetector/PeakDetectorUnitTests/PeakDetectorUnitTests.cpp:131-144 | test case 4: end samples 10 apart still make a peak |
| PeakDetectorTests.MinimumPastTolerance | Mark3.3/src/PeakDetector/PeakDetectorUnitTests/PeakDetectorUnitTests.cpp:149-162 | test case 5: end samples 11 apart make none |
| PeakDetectorTests.RisingLine | Mark3.3/src/PeakDetector/PeakDetectorUnitTests/PeakDetectorUnitTests.cpp:166-179 | test case 6: a rising line reports no peak |
| PeakDetectorTests.ConcaveDown | Mark3.3/src/PeakDetector/PeakDetectorUnitTests/PeakDetectorUnitTests.cpp:183-196 | test case 7: a hill reports no peak |
| PeakDetectorTests.StepGrow | Mark3.3/src/PeakDetector/PeakDetector.cpp:88-94 | under any settings, a sample at or below the floor that leaves the window short of full is appended to the window-level description |
| PeakDetectorTests.StepFill | Mark3.3/src/PeakDetector/PeakDetector.cpp:88-107 | under any settings, the sample that fills the window runs the peak test on exactly the buffered samples |
| PeakDetectorTests.StepSlide | Mark3.3/src/PeakDetector/PeakDetector.cpp:80-107 | under any settings, a sample sliding through a full window drops its oldest sample and runs the peak test on the result |
| PeakDetectorTests.StepRestart | Mark3.3/src/PeakDetector/PeakDetector.cpp:73-94 | under any settings, a sample at or below the floor after a peak starts the window over from itself |
| PeakDetectorTests.StepReject | Mark3.3/src/PeakDetector/PeakDetector.cpp:73-78 | under any settings, a sample above the floor only empties a window whose peak is pending |
| PeakDetectorTests.NextTracks | Mark3.3/src/PeakDetector/PeakDetector.cpp:71-109 | for every width, floor, tolerance and sample, the slot-level `addDistance` agrees with the window-level `PkNext` on the buffered samples and on all four peak records |
| PeakDetectorTests.PkRunConcat | Mark3.3/src/PeakDetector/PeakDetector.cpp:71-109 | the window-level description of two lists in turn is that of their concatenation |
| PeakDetectorTests.FeedTracks | Mark3.3/src/PeakDetector/PeakDetector.cpp:71-109 | for every width, floor, tolerance and list of samples, feeding the detector agrees with running `PkNext` over the list |
| DescendingRun.Descending | Mark3.3/src/PeakDetector/PeakDetectorUnitTests/PeakDetectorUnitTests.cpp:96-108 | test case 2: a strictly falling run reports no peak, and all records stay at 1800 |
| OneMinimumRun.OneMinimum | Mark3.3/src/PeakDetector/PeakDetectorUnitTests/PeakDetectorUnitTests.cpp:114-126 | test case 3: one peak at 1629 |
| WideWindowRun.WideWindow | Mark3.3/src/PeakDetector/PeakDetectorUnitTests/PeakDetectorUnitTests.cpp:200-212 | the first test case 8, with width 10: one peak at 1629 |
| ThreeMinimaRun.ThreeMinima | Mark3.3/src/PeakDetector/PeakDetectorUnitTests/PeakDetectorUnitTests.cpp:215-228 | the second test case 8: largest peak 1397, three peaks, last 1398, second last 1399 |
| TwoMinimaRun.TwoMinima | Mark3.3/src/PeakDetector/PeakDetectorUnitTests/PeakDetectorUnitTests.cpp:231-244 | test case 9: largest peak 1400, two peaks, last 1400, second last 1670 |
| PeopleCounting.ZoneEvent | Mark3.3/src/PeopleCounter/PeopleCounter.cpp:288-290 | a zone's peak event names that zone, never `NONE` |
| PeopleCounting.Percent | Mark3.3/src/PeopleCounter/PeopleCounter.cpp:93-95 | the truncated percentage of a range lies between 0 and the exact fraction, on the range's side |
| PeopleCounting.VacancyThreshold | Mark3.3/src/PeopleCounter/PeopleCounter.cpp:91-96 | for a percentage of at most 100, the threshold lies between the ceiling and the floor |
| PeopleCounting.DetectorFloor | Mark3.3/src/PeopleCounter/PeopleCounter.cpp:14-16 | the detectors' floor is the counter's floor raised by the truncated percentage of the range, so for a non-negative range it is never below the floor |
| PeopleCounting.AfterInitializePeopleCounterData | Mark3.3/src/PeopleCounter/PeopleCounter.cpp:234-241 | the episode data return to no zones, no overlap and zero counts; nothing else changes |
| PeopleCounting.ClearedPathBuffer | Mark3.3/src/PeopleCounter/PeopleCounter.cpp:244-250 | both slots become empty and the count and full flag are cleared, while the slots' distances and the pre-window survive |
| PeopleCounting.InitializedPathTracker | Mark3.3/src/PeopleCounter/PeopleCounter.cpp:253-257 | as `ClearedPathBuffer`, and the pre-window is emptied too |
| PeopleCounting.UpdatedPathTracker | Mark3.3/src/PeopleCounter/PeopleCounter.cpp:260-295 | the peak lands in the last used slot; from one held peak, the buffer fills iff the new peak is in the opposite zone |
| PeopleCounting.ProcessedPathTracker | Mark3.3/src/PeopleCounter/PeopleCounter.cpp:299-357 | processing changes the net crossings by at most one, touches neither zone record nor the overlap flag, and does nothing without a peak in slot 0 |
| PeopleCounting.AfterAddZDistance | Mark3.3/src/PeopleCounter/PeopleCounter.cpp:165-176 | only the named zone's detector takes the sample |
| PeopleCounting.AfterUpdatePathTracker | Mark3.3/src/PeopleCounter/PeopleCounter.cpp:260-295 | only the tracker changes, and it ends holding the zone's last peak |
| PeopleCounting.AfterSetZoneStatus | Mark3.3/src/PeopleCounter/PeopleCounter.cpp:206-217 | the named zone takes the status, and the other zone keeps its own |
| PeopleCounting.AfterSavePreviousStatus | Mark3.3/src/PeopleCounter/PeopleCounter.cpp:220-231 | the named zone's previous status becomes its current one, and nothing else changes |
| PeopleCounting.AfterClearData | Mark3.3/src/PeopleCounter/PeopleCounter.cpp:444-450 | a new episode: the slots and the pre-window are emptied, the episode data return to their initial values, and both detectors are reset; statuses, settings and count stay |
| PeopleCounting.NotedPeaks | Mark3.3/src/PeopleCounter/PeopleCounter.cpp:362-402 | the first-peak zone becomes the calling zone exactly when its detector holds one peak and the other detector none, and stays otherwise; the last-peak zone becomes the calling zone iff its detector reports a peak; the overlap flag is set once both zones are occupied; the peak count and net crossings stay |
| PeopleCounting.AfterUpdatePeopleCounterData | Mark3.3/src/PeopleCounter/PeopleCounter.cpp:360-410 | the data become `NotedPeaks`, and a full path buffer is then folded into them by `ProcessedPathTracker` and cleared; any other buffer is left alone; nothing but the data and the tracker changes |
| PeopleCounting.Multiplier | Mark3.3/src/PeopleCounter/PeopleCounter.cpp:426-436 | the sign is -1 exactly when the first and last peak zones agree and the episode's peak count is odd, and +1 otherwise |
| PeopleCounting.AfterProcessPeopleCounterData | Mark3.3/src/PeopleCounter/PeopleCounter.cpp:415-441 | a held peak is processed unless the buffer is full; without the overlap flag the count stays, and with it the count moves by `Multiplier` times the episode's net crossings |
| PeopleCounting.AfterStatusUpdate | Mark3.3/src/PeopleCounter/PeopleCounter.cpp:105-132 | the zone ends occupied iff the sample is below the vacancy threshold, whatever it was before, and the other zone's status, the settings and the count stay |
| PeopleCounting.AfterPeakUpdate | Mark3.3/src/PeopleCounter/PeopleCounter.cpp:134-144 | an occupied zone's detector takes the sample through `AfterAddDistance`, and a peak it then reports goes to the path tracker through `UpdatedPathTracker`; the other detector is untouched, and a vacant zone changes nothing |
| PeopleCounting.AfterAddData | Mark3.3/src/PeopleCounter/PeopleCounter.cpp:99-157 | a sample outside [ceiling, floor] changes nothing; the settings never change; the count moves by `Multiplier` times the net crossings exactly on an accepted sample that leaves both zones vacant in an episode marked as overlapping, and stays otherwise |
| PeopleCounting.CounterConstructed | Mark3.3/src/PeopleCounter/PeopleCounter.cpp:14-28 | ceiling = floor - abs(range); vacancy threshold from the percentage; both detectors built over the raised floor; both zones vacant; a clean tracker and episode; the count at 0 |
| PeopleCounting.CounterConstructedAsWritten | Mark3.3/src/PeopleCounter/PeopleCounter.cpp:14-28 | the constructor as written: everything as intended except the count, which starts at whatever the storage held |
| PeopleCounting.Configured | Mark3.3/src/PeopleCounter/PeopleCounter.cpp:14-26 | the fields the constructor assigns before its closing `clearData` form a valid state |
| PeopleCounting.PeopleCounter.constructor | Mark3.3/src/PeopleCounter/PeopleCounter.cpp:14-28 | the new object's fields are `CounterConstructed(...)`, with two distinct detectors |
| PeopleCounting.PeopleCounter.GetZoneStatus | Mark3.3/src/PeopleCounter/PeopleCounter.cpp:34-43 | returns the named zone's status |
| PeopleCounting.PeopleCounter.GetPeopleCount | Mark3.3/src/PeopleCounter/PeopleCounter.cpp:46-49 | returns the count |
| PeopleCounting.PeopleCounter.SetPeakDetectorFloor | Mark3.3/src/PeopleCounter/PeopleCounter.cpp:52-57 | the recorded floor and both detectors' floors change, and nothing else |
| PeopleCounting.PeopleCounter.SetPeakDetectorWindowSize | Mark3.3/src/PeopleCounter/PeopleCounter.cpp:66-70 | both detectors take `min(window, 16)`, and nothing else changes |
| PeopleCounting.PeopleCounter.SetPeakDetectorDispersionTolerance | Mark3.3/src/PeopleCounter/PeopleCounter.cpp:76-80 | both detectors take the tolerance, and nothing else changes |
| PeopleCounting.PeopleCounter.SetPeakVariationTolerance | Mark3.3/src/PeopleCounter/PeopleCounter.cpp:83-86 | only the peak variation tolerance changes |
| PeopleCounting.PeopleCounter.SetVacancyThreshold | Mark3.3/src/PeopleCounter/PeopleCounter.cpp:91-96 | only the vacancy threshold changes, to the percentage of the way from floor to ceiling |
| PeopleCounting.PeopleCounter.AddData | Mark3.3/src/PeopleCounter/PeopleCounter.cpp:99-157 | leaves the fields at `AfterAddData` of the old ones |
| PeopleCounting.PeopleCounter.UpdateStatus | Mark3.3/src/PeopleCounter/PeopleCounter.cpp:105-132 | the status switch leaves the fields at `AfterStatusUpdate` |
| PeopleCounting.PeopleCounter.UpdatePeaks | Mark3.3/src/PeopleCounter/PeopleCounter.cpp:134-144 | the peak step leaves the fields at `AfterPeakUpdate` |
| PeopleCounting.PeopleCounter.AddZDistance | Mark3.3/src/PeopleCounter/PeopleCounter.cpp:165-176 | leaves the fields at `AfterAddZDistance` |
| PeopleCounting.PeopleCounter.DetectPeak | Mark3.3/src/PeopleCounter/PeopleCounter.cpp:182-191 | answers the named zone's detector's peak test |
| PeopleCounting.PeopleCounter.GetLastPeak | Mark3.3/src/PeopleCounter/PeopleCounter.cpp:194-203 | returns the named zone's detector's last peak |
| PeopleCounting.PeopleCounter.SetZoneStatus | Mark3.3/src/PeopleCounter/PeopleCounter.cpp:206-217 | leaves the fields at `AfterSetZoneStatus` |
| PeopleCounting.PeopleCounter.SavePreviousStatus | Mark3.3/src/PeopleCounter/PeopleCounter.cpp:220-231 | leaves the fields at `AfterSavePreviousStatus` |
| PeopleCounting.PeopleCounter.InitializePeopleCounterData | Mark3.3/src/PeopleCounter/PeopleCounter.cpp:234-241 | leaves the fields at `AfterInitializePeopleCounterData` |
| PeopleCounting.PeopleCounter.ClearPathBuffer | Mark3.3/src/PeopleCounter/PeopleCounter.cpp:244-250 | the tracker becomes `ClearedPathBuffer` of the old one |
| PeopleCounting.PeopleCounter.InitializePathTracker | Mark3.3/src/PeopleCounter/PeopleCounter.cpp:253-257 | the tracker becomes `InitializedPathTracker` of the old one |
| PeopleCounting.PeopleCounter.UpdatePathTracker | Mark3.3/src/PeopleCounter/PeopleCounter.cpp:260-295 | leaves the fields at `AfterUpdatePathTracker` |
| PeopleCounting.PeopleCounter.ProcessPathTracker | Mark3.3/src/PeopleCounter/PeopleCounter.cpp:299-357 | the episode data become `ProcessedPathTracker` of the old tracker and data |
| PeopleCounting.PeopleCounter.NotePeaks | Mark3.3/src/PeopleCounter/PeopleCounter.cpp:362-402 | the episode data become `NotedPeaks` |
| PeopleCounting.PeopleCounter.UpdatePeopleCounterData | Mark3.3/src/PeopleCounter/PeopleCounter.cpp:360-410 | leaves the fields at `AfterUpdatePeopleCounterData` |
| PeopleCounting.PeopleCounter.ProcessPeopleCounterData | Mark3.3/src/PeopleCounter/PeopleCounter.cpp:415-441 | leaves the fields at `AfterProcessPeopleCounterData` |
| PeopleCounting.PeopleCounter.ClearData | Mark3.3/src/PeopleCounter/PeopleCounter.cpp:444-450 | leaves the fields at `AfterClearData` |
| PeopleCounterProperties.StatusFollowsSample | Mark3.3/src/PeopleCounter/PeopleCounter.cpp:105-132 | after a whole `addData`, an accepted sample leaves its zone occupied iff it is below the vacancy threshold, and the other zone unchanged |
| PeopleCounterProperties.AddDataKeepsTrackerIdle | Mark3.3/src/PeopleCounter/PeopleCounter.cpp:260-295 | between samples the path tracker holds at most one peak and is never left full |
| PeopleCounterProperties.VacantStartKeepsCount | Mark3.3/src/PeopleCounter/PeopleCounter.cpp:111-118 | a sample that finds both zones vacant never moves the count |
| PeopleCounterProperties.PathTrackerSteps | Mark3.3/src/PeopleCounter/PeopleCounter.cpp:260-295 | a first peak takes slot 0; an opposite peak takes slot 1, fills the buffer and becomes the pre-window; a same-zone peak replaces slot 0 and pushes the old one into the pre-window |
| PeopleCounterProperties.PathContribution | Mark3.3/src/PeopleCounter/PeopleCounter.cpp:299-357 | a matching opposite pair is +1 from left to right and -1 from right to left, and counts two peaks; a mismatched pair counts one peak; a lone peak after an opposite pre-window is the reverse crossing; nothing else changes the data |
| PeopleCounterProperties.EpisodeStartResets | Mark3.3/src/PeopleCounter/PeopleCounter.cpp:111-118 | a sample that finds both zones vacant empties the slots and the pre-window, resets the episode data and resets both detectors |
| PeopleCounterProperties.OverlapNeedsBothOccupied | Mark3.3/src/PeopleCounter/PeopleCounter.cpp:398-402 | the overlap flag is raised only by a sample that leaves both zones occupied |
| PeopleCounterProperties.UnmarkedSampleKeepsCount | Mark3.3/src/PeopleCounter/PeopleCounter.cpp:424-440 | in an episode not marked as overlapping, a sample that does not leave both zones occupied keeps it unmarked and leaves the count alone |
| PeopleCounterProperties.ClearDataIdempotent | Mark3.3/src/PeopleCounter/PeopleCounter.cpp:444-450 | two `clearData` calls are one |
| PeopleCounterProperties.EpisodeStartForgetsHistory | Mark3.3/src/PeopleCounter/PeopleCounter.cpp:111-118 | a sample that finds both zones vacant acts the same whether or not the data were cleared before it |
| PeopleCounterProperties.CountChangeIsSignedNet | Mark3.3/src/PeopleCounter/PeopleCounter.cpp:426-439 | the count moves only when a sample closes an overlapping episode, and then by the net crossings, negated when the first and last peaks share a zone and their number is odd |
| PeopleCounterProperties.ConstructedNotesFirstPeak | Mark3.3/src/PeopleCounter/PeopleCounter.cpp:14-28 | a new counter has no first-peak zone and both detectors have no peaks |
| PeopleCounterProperties.AddDataNotesFirstPeak | Mark3.3/src/PeopleCounter/PeopleCounter.cpp:362-380 | every sample keeps the first-peak zone at none exactly while neither detector has reported a peak, and otherwise at a zone whose detector has |
| PeopleCounterProperties.NotingFirstPeak | Mark3.3/src/PeopleCounter/PeopleCounter.cpp:362-380 | when the peak step adds at most one peak to the calling zone's detector, `updatePeopleCounterData` keeps the first-peak zone in step with the detectors |
| PeopleCounterProperties.AddDataFeedsOccupiedZone | Mark3.3/src/PeopleCounter/PeopleCounter.cpp:108-144 | a zone's detector takes exactly the accepted samples that leave the zone occupied, after a reset when the sample finds both zones vacant; the other detector is only ever reset |
| PeopleCounterProperties.MirrorProcessedPathTracker | Mark3.3/src/PeopleCounter/PeopleCounter.cpp:299-357 | swapping the zones in the tracker negates the net crossings it adds |
| PeopleCounterProperties.MirrorUpdatedPathTracker | Mark3.3/src/PeopleCounter/PeopleCounter.cpp:260-295 | the tracker treats a left and a right peak alike, up to the swap |
| PeopleCounterProperties.MirrorClearData | Mark3.3/src/PeopleCounter/PeopleCounter.cpp:444-450 | `clearData` commutes with swapping the zones |
| PeopleCounterProperties.MirrorStatusUpdate | Mark3.3/src/PeopleCounter/PeopleCounter.cpp:105-132 | the status switch commutes with swapping the zones |
| PeopleCounterProperties.MirrorPeakUpdate | Mark3.3/src/PeopleCounter/PeopleCounter.cpp:134-144 | the peak step commutes with swapping the zones |
| PeopleCounterProperties.MirrorUpdatePeopleCounterData | Mark3.3/src/PeopleCounter/PeopleCounter.cpp:360-410 | `updatePeopleCounterData` commutes with swapping the zones |
| PeopleCounterProperties.MirrorProcessPeopleCounterData | Mark3.3/src/PeopleCounter/PeopleCounter.cpp:415-441 | `processPeopleCounterData` commutes with swapping the zones |
| PeopleCounterProperties.MirrorAddData | Mark3.3/src/PeopleCounter/PeopleCounter.cpp:99-157 | a sample for the other zone, on the mirrored counter, gives the mirrored result |
| PeopleCounterProperties.MirrorRun | Mark3.3/src/PeopleCounter/PeopleCounter.cpp:99-157 | a whole stream and its mirror image leave mirrored counters |
| PeopleCounterProperties.MirroredStreamNegatesCount | Mark3.3/src/PeopleCounter/PeopleCounter.cpp:99-157 | the people a stream counts in, its mirror image counts out |
| PeopleCounterProperties.AddDataShiftsCount | Mark3.3/src/PeopleCounter/PeopleCounter.cpp:99-157 | a counter that starts `k` higher takes a sample the same way and stays `k` higher |
| PeopleCounterProperties.RunShiftsCount | Mark3.3/src/PeopleCounter/PeopleCounter.cpp:99-157 | the same holds for a whole stream |
| PeopleCounterProperties.LeftoverCountOffsetsEveryReading | Mark3.3/src/PeopleCounter/PeopleCounter.cpp:14-28 | a counter built as written reports, after any stream, the intended count plus whatever its storage held |
| PeopleCounterProperties.Interleave | Mark3.3/src/PeopleCounter/PeopleCounterUnitTests/PeopleCounterTestClass.cpp:54-84 | each instant hands its left reading to `addData` before its right one |
| PeopleCounterProperties.Readings | Mark3.3/src/PeopleCounter/PeopleCounterUnitTests/PeopleCounterTestClass.cpp:86-95 | the readings of one zone, in order |
| PeopleCounterProperties.OneSidedStreamKeepsCount | Mark3.3/src/PeopleCounter/PeopleCounter.cpp:99-157 | in-range readings of one zone, with the other vacant, never move the count, and the zone ends as its last reading says |
| PeopleCounterProperties.ApartStreamKeepsCount | Mark3.3/src/PeopleCounter/PeopleCounter.cpp:99-157 | paired in-range readings that never occupy both zones at once never move the count |
| PeopleCounterTests.ConstructedForTests | Mark3.3/src/PeopleCounter/PeopleCounterUnitTests/PeopleCounterUnitTests.cpp:15-25 | test case i: ceiling 200, floor 1800, vacancy threshold 1720, detectors over 1880, both zones vacant, count 0 |
| PeopleCounterTests.ConstructedIsFresh | Mark3.3/src/PeopleCounter/PeopleCounterUnitTests/PeopleCounterUnitTests.cpp:5 | `pc(1800, 1600, 5)` builds the counter the unit tests start from |
| PeopleCounterTests.OutOfRangeIgnored | Mark3.3/src/PeopleCounter/PeopleCounterUnitTests/PeopleCounterUnitTests.cpp:28-40 | test cases ii and the second vii (lines 119-131): 1801 and 199 change nothing |
| PeopleCounterTests.JustOutsideStaysVacant | Mark3.3/src/PeopleCounter/PeopleCounterUnitTests/PeopleCounterUnitTests.cpp:43-55 | test case iii: 1721 leaves both zones vacant |
| PeopleCounterTests.JustInsideOccupies | Mark3.3/src/PeopleCounter/PeopleCounterUnitTests/PeopleCounterUnitTests.cpp:59-71 | test case iv: 1719 occupies the left zone |
| PeopleCounterTests.StaysOccupied | Mark3.3/src/PeopleCounter/PeopleCounterUnitTests/PeopleCounterUnitTests.cpp:74-86 | test case v: a second 1719 keeps it occupied |
| PeopleCounterTests.FarReadingVacates | Mark3.3/src/PeopleCounter/PeopleCounterUnitTests/PeopleCounterUnitTests.cpp:89-116 | test cases vi and vii: 1799 vacates the left zone without moving the count |
| PeopleCounterTests.CeilingReadingOccupies | Mark3.3/src/PeopleCounter/PeopleCounterUnitTests/PeopleCounterUnitTests.cpp:133-145 | test case ix: 200, exactly the ceiling, is accepted and occupies the right zone |
| PeopleCounterTests.SingleSampleCases | Mark3.3/src/PeopleCounter/PeopleCounterUnitTests/PeopleCounterUnitTests.cpp:15-145 | cases ii to ix in sequence on the freshly built counter: each expected status, and the count stays 0 |
| PeopleCounterScenarios.RightTraversal | Mark3.3/src/PeopleCounter/PeopleCounterUnitTests/PeopleCounterUnitTests.cpp:151-161 | test case 0: a traversal of the right zone alone leaves both zones vacant and the count unchanged |
| PeopleCounterScenarios.TestProgramOpening | Mark3.3/src/PeopleCounter/PeopleCounterUnitTests/PeopleCounterUnitTests.cpp:5-161 | the built counter, after the single-sample cases and test case 0, is ready for the scenarios, with nothing counted |
| PeopleCounterScenarios.NoOverlap | Mark3.3/src/PeopleCounter/PeopleCounterUnitTests/PeopleCounterUnitTests.cpp:323-335 | test case 10: two people step in and back on opposite sides, never both in view, and the count stays |
| PeopleCounterScenarios.OpeningInstant | Mark3.3/src/PeopleCounter/PeopleCounter.cpp:99-157 | from the scenario start, readings 1600 left and 1780 right occupy the left zone alone and start a clean episode |
| PeopleCounterScenarios.OpeningLeftReading | Mark3.3/src/PeopleCounter/PeopleCounter.cpp:99-157 | the following left reading of 1500 keeps the left zone occupied and buffers it, and nothing else changes |
| PeopleCounterScenarios.QuietReading | Mark3.3/src/PeopleCounter/PeopleCounter.cpp:99-157 | with both zones vacant and a clean episode, any reading from the vacancy threshold up to the floor, in either zone, changes nothing a scenario tracks, the count included |
| EntranceScenario.Entrance | Mark3.3/src/PeopleCounter/PeopleCounterUnitTests/PeopleCounterUnitTests.cpp:166-179 | test case 1: an entrance adds one, and both zones end vacant |
| ExitScenario.Exit | Mark3.3/src/PeopleCounter/PeopleCounterUnitTests/PeopleCounterUnitTests.cpp:184-196 | test case 2: an exit subtracts one |
| TurnBackScenario.TurnBack | Mark3.3/src/PeopleCounter/PeopleCounterUnitTests/PeopleCounterUnitTests.cpp:200-212 | test case 3: a person who turns back before the right midpoint leaves the count unchanged |
| TwoEnterScenario.TwoEnter | Mark3.3/src/PeopleCounter/PeopleCounterUnitTests/PeopleCounterUnitTests.cpp:235-247 | test case 5: two entrances add two |
| CollisionScenario.Collision | Mark3.3/src/PeopleCounter/PeopleCounterUnitTests/PeopleCounterUnitTests.cpp:253-265 | test case 6: the collision at the door subtracts one |
| OppositeStepsScenario.OppositeSteps | Mark3.3/src/PeopleCounter/PeopleCounterUnitTests/PeopleCounterUnitTests.cpp:306-318 | test case 9: two people step in and back on opposite sides, and the count stays |

Points where the code's behaviour is easy to misread; the model follows the code:

- The peak value is the minimum over all `window` slots, slot 0 included
  (PeakDetector.cpp:98-102).
- A sample above the floor is not a pure no-op. If a peak is pending, it still
  empties the buffer (PeakDetector.cpp:73-76).
- The pre-window does not outlive an episode. `clearData` at the start of
  every episode empties it, through `initializePathTracker`
  (PeopleCounter.cpp:253-257 and 444-450). Only `clearPathBuffer` leaves it.
- The detectors are built over the floor raised by the vacancy percentage of
  the range (1880 in the tests), not over `peakDetectionFloor`
  (PeopleCounter.cpp:14-16).
- The last-peak zone is set whenever the calling zone's detector currently
  reports a peak. That includes a window that held its valley since an
  earlier sample (PeopleCounter.cpp:381-396).
- An episode is processed on every accepted sample that leaves both zones
  vacant, not only on the one that vacates the second zone
  (PeopleCounter.cpp:150-154). The extra call is harmless: a sample that
  finds both zones vacant clears the episode before it
  (`VacantStartKeepsCount`).
- Divisions truncate toward zero, as C's do.
- In the counter's test program, the text of case ii speaks of the right zone
  but feeds the left one. Two cases are numbered vii.

## Left out

- `volatile` and interrupts: every operation is one atomic step. Concurrent
  access from interrupt context is not modelled.
- 32-bit `int` overflow is not modelled: distances, the count and the net
  crossings are unbounded integers. `uint8_t` fields keep their range, and
  `numPeaks` wraps modulo 256 as in C.
- PeakDetection.PeakDetector.SetWindowSize: requires a width of at least 1,
  and no fewer slots than the samples already buffered (see Findings). Width
  0 makes the next sample at or below the floor write to `distances[-1]`
  (PeakDetector.cpp:94). A width below the buffered count is never equalled
  again (lines 80 and 91). The detector then stops reporting peaks until the
  next `reset`, and after 17 minus the buffered count further samples at or
  below the floor it writes past the array. In the counter, the `clearData`
  at the next episode start resets it first. The model gives neither the
  silent detector nor the stray writes a meaning.
- PeopleCounting.PeopleCounter.SetPeakDetectorWindowSize: the same
  restriction, for both detectors.
- PeopleCounting.PeopleCounter.constructor: starts the count at 0. The C++
  constructor leaves `PplCount` uninitialised (see Findings).
- The path tracker's slot and pre-window distances start at 0. In C++ they
  hold whatever the storage held. No distance is read before
  `updatePathTracker` writes it, so the starting value cannot be observed.
- The constructor's call to `setVacancyThreshold` is inlined: it assigns the
  same value from the same thresholds.
- The `getZoneStatus`, `detectPeak` and `getLastPeak` switches have no
  fall-through result for an invalid `Zone`. The enum has only two values.
- Scenario tests 4, 7, 8, 11, 12, 13 and 14 of the counter's test program are
  not stated as lemmas. Scenarios 0, 1, 2, 3, 5, 6, 9 and 10 are, and the
  single-sample cases are proved in sequence.
- Detector test cases are stated after the `reset` that opens each case.
  Running them back to back on one object is not modelled beyond
  `ResetEstablishesTestState`.
- The Mark3.4 C rewrite, the DEBUG emulator and verifier headers, and the test
  harness's printing are not part of this model.

## Findings

| source | as written | input that shows it | evidently intended | confidence | as-written member | corrected member |
|---|---|---|---|---|---|---|
| Mark3.3/src/PeopleCounter/PeopleCounter.cpp:14-28 | the constructor never assigns `PplCount`, and nothing else does before the first episode adds to it | any counter not in static storage, for example one built on the stack, whose storage held 7: after an entrance it reports 8 | the count starts at 0 | medium; not executed | PeopleCounting.CounterConstructedAsWritten, PeopleCounterProperties.LeftoverCountOffsetsEveryReading | PeopleCounting.CounterConstructed |
| Mark3.3/src/PeakDetector/PeakDetector.cpp:33-36 | `setWindowSize` accepts 0, and any width below the current buffer count; `addDistance` then writes to `distances[-1]`, or lets the count pass the width and run off the 16-slot array | `setWindowSize(0)` then any sample at or below the floor; or 5 samples buffered, `setWindowSize(2)`, then 12 more samples | every write stays inside the 16 slots | medium; not executed | PeakDetectorProperties.StoreCountAsWritten, PeakDetectorProperties.ZeroWidthWritesBeforeBuffer, PeakDetectorProperties.ShrunkWidthOverrunsBuffer | PeakDetection.PeakDetector.SetWindowSize |
