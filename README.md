# Social anxiety tracking: a verified model of the calibration and analysis core

SocialAnxietyTracking follows a user's eyes through a webcam and scores a
session for signs of social anxiety. The camera loop finds the pupils and
reports a blink flag on each frame. A calibration maps pupil positions to
screen pixels. A session analyser then folds each frame's blink flag and
predicted gaze point into counters, and it scores the session with an
additive rule table.

This Dafny project models the part of the repository that turns those
per-frame inputs into calibrations, predictions and assessments:

- **Calibration** (`calibration.py`, and `PreciseGazeCalibrator` in
  `anxiety_tracker.py`).
  - Five targets.
  - Median-based outlier filtering of the samples collected at each target.
  - Averaging into one correspondence entry per target.
  - All-or-nothing completion, saving, and loading behind a resolution check.
  - The k-nearest-neighbour, inverse-distance-weighted gaze prediction.
- **Session analysis**, in three variants:
  - `DataProcessing` (`data_processing.py`): smoothed gaze, screen-relative zones.
  - `AdvancedAnxietyDetector` (`anxiety_tracker.py`): raw gaze, a fixed
    1920x1080 screen, a bounded recent-gaze list.
  - `SocialAnxietyDetector` (`social_anxiety_tracker.py`): debounced blinks,
    gaze avoidance, rapid movements, a score out of 6.

The three analysers and the two calibrators are classes. Their fields are the
Python attributes, and their methods update them in place. The calibrators
have no invariant; their methods state directly what becomes of the table and
of the calibrated flag. Each analyser class has a
`Valid()` invariant tying its counters to what they count:

- the blink count is the number of recorded durations (or debounced timestamps);
- the saccade count is the number of stored velocities above 300;
- the centre, edge and avoidance counters are the number of stored positions
  in their zone;
- the bounded deques hold the last N entries appended.

Every analyser operation that starts a session or handles a frame
(`__init__`, `reset_session`, `process_frame`, `process_blink_data`,
`process_gaze_position`, `analyze_frame`) establishes or preserves that
invariant. Its postcondition states the new state in terms of specification
functions, either directly or through the invariant. The helper methods that
model one section of such an operation (`SmoothGazeData`, `RecordVelocity`,
`AnalyzeGazeZones`, `CountZones`, `TrackBlink`, `CountBlink`, `RecordGaze`)
are intermediate steps. They may start or leave the invariant broken, and
their postconditions state only their own effect. The specification functions
are shared between the variants (`Signals`, `Scoring`, `CalibrationModel`, `Prediction`)
and carry the lemmas: round trips, bounds, iff characterisations of every
indicator, and monotonicity of the assessment tiers.

Modules and files:

| file | module | what it holds |
|---|---|---|
| `numerics.dfy` | `Numerics` | `int()`, the clamp, sums, means, variance, `np.sqrt` as a parameter, counting, bounded windows |
| `sorting.dfy` | `Sorting` | insertion sort (sorted and a permutation), `np.median` |
| `calibration_model.dfy` | `CalibrationModel` | samples, entries, targets, outlier filtering, averaging, the saved record |
| `prediction.dfy` | `Prediction` | the nearest-neighbour prediction as a function, and its loops as methods |
| `calibration.dfy` | `Calibration` | class `CalibrationModule` |
| `precise_calibrator.dfy` | `PreciseCalibrator` | class `PreciseGazeCalibrator` |
| `signals.dfy` | `Signals` | blink state machine, velocities, zones, smoothing, look-away and accuracy folds |
| `scoring.dfy` | `Scoring` | session metrics, the seven-rule table, assessment tiers |
| `data_processing.dfy` | `SessionAnalysis` | class `DataProcessing` |
| `anxiety_detector.dfy` | `AnxietyDetection` | class `AdvancedAnxietyDetector` |
| `social_detector.dfy` | `SocialDetection` | class `SocialAnxietyDetector` and its score |

Floats are modelled as exact reals. `np.sqrt` is a function parameter
`root`, which callers must show to be the non-negative square root
(`IsSqrt`). Each zone test is stated on integer squared distances and proved
equivalent to the source's square-root comparison. The current time
(`time.time()`) is a `now` parameter. The detector's blink flag is a boolean
parameter.

Where the code's own names, comments or literals suggest another reading,
the model follows what the code computes:

- **Sample threshold.** The attribute `min_samples_per_point = 10`
  (calibration.py:22) only bounds the collection loop (calibration.py:46).
  `process_calibration_point` uses its own literal and rejects batches of
  fewer than 5 samples (calibration.py:89). The model uses 5.
- **Failed completion.** `complete_calibration` empties the table on failure
  but does not clear `is_calibrated` (calibration.py:114-116). So a module
  that was calibrated before stays flagged as calibrated, with an empty table.
  The older `PreciseGazeCalibrator` keeps the appended entries on failure.
- **Maximum score.** Both comprehensive analyses report the literal
  `max_score` 15 (data_processing.py:253, anxiety_tracker.py:402), but
  the largest attainable score is 14 (3+2+1+2+3+2+1). `ScoreMatchesIndicators`
  proves the bound and `ScoreReachesFourteen` shows it is reached.
- **Saccade rate.** `anxiety_saccade_rate = 6` is commented as saccades per
  second (data_processing.py:33, anxiety_tracker.py:247). The rate it is
  compared with is saccades per minute, because the session duration is
  converted to minutes (data_processing.py:169-173, 218). The model compares
  saccades per minute with 6.
- **Blink start at time 0.0.** The guard `if self.blink_start_time:`
  (data_processing.py:68) reads as "a blink has started". But Python treats a
  start time of `0.0` as false, so such a blink is never counted
  (`BlinkExamples`).

One more consequence of the code follows:

- **Prediction at a target.** The prediction is a weighted average of up to
  four neighbours, not an interpolation through the table. A pupil position
  equal to a calibrated entry therefore predicts that entry's point only when
  every neighbour names the same point (`PredictSingleTarget`). In general the
  prediction lies in the box spanned by the table's points
  (`PredictWithinTable`).

## Model

| member | source | states |
|---|---|---|
| `Numerics.Trunc` | calibration.py:162-163 | `int()` of a float truncates toward zero: the result is within 1 of its argument, on the side of 0 |
| `Numerics.Clamp` | calibration.py:166-167 | `max(0, min(hi, v))` lies in `[0, hi]`, is `v` itself when `v` is on screen, 0 below and `hi` above |
| `Sorting.MedianBetweenSamples` | calibration.py:75-76 | the median of the sample coordinates lies between some sample and some other sample |
| `CalibrationModel.TargetsOnScreen` | calibration.py:26-36 | five targets; on a screen at least 300 pixels each way, all are at least 150 pixels inside the screen and the first is the centre (`// 2`) |
| `CalibrationModel.Kept` | calibration.py:79-85 | the samples kept by the filter come from the batch and are strictly within 20 pixels of the medians on both axes |
| `CalibrationModel.KeptComplete` | calibration.py:79-85 | no sample within the threshold of the medians is dropped |
| `CalibrationModel.KeptOrder` | calibration.py:79-85 | filtering distributes over concatenation, so it keeps the samples' order |
| `CalibrationModel.FilterOutliers` | calibration.py:67-85 | fewer than 3 samples pass through unchanged; otherwise the result is exactly the samples near the coordinate-wise medians, in order |
| `CalibrationModel.AverageNearMedian` | calibration.py:94-103 | an entry averaged from samples near the medians has its pupil position strictly within 20 pixels of the medians |
| `CalibrationModel.BatchEntrySpec` | calibration.py:87-106 | a batch yields no entry iff it is too small or filtering leaves nothing; otherwise the entry is at the target and near the medians |
| `CalibrationModel.SteadyBatch` | calibration.py:87-106 | a batch of identical samples averages to that sample at the target |
| `CalibrationModel.SomesFrom` | anxiety_tracker.py:111-124 | every entry appended over a run is the outcome of some target, and none is appended when no target succeeds |
| `CalibrationModel.BatchEntriesOnTargets` | anxiety_tracker.py:97-124 | a run appends at most one entry per target, each carrying a target's screen point |
| `CalibrationModel.SmallBatchesAddNothing` | anxiety_tracker.py:97-124 | a run whose batches all have fewer than the minimum number of samples appends nothing |
| `CalibrationModel.Loaded` | calibration.py:187-206 | a stored record loads iff it exists and its resolution equals the current one, and then it loads its points |
| `CalibrationModel.SaveLoadRoundTrip` | calibration.py:173-206 | a record saved at one resolution loads back its points at that resolution and nothing at any other |
| `Calibration.CalibrationModule.constructor` | calibration.py:15-24 | an empty, uncalibrated module for the given screen |
| `Calibration.CalibrationModule.CalibrationPoints` | calibration.py:26-36 | five targets, all inside the screen by the margin when the screen is large enough |
| `Calibration.CalibrationModule.ProcessCalibrationPoint` | calibration.py:87-106 | succeeds iff the batch has at least 5 samples and filtering leaves some; it then appends exactly the averaged entry; otherwise nothing changes |
| `Calibration.CalibrationModule.SaveCalibration` | calibration.py:173-185 | the saved record loads back to the current table at the current resolution and carries the save time |
| `Calibration.CalibrationModule.CompleteCalibration` | calibration.py:108-116 | succeeds iff at least 4 targets succeeded; success keeps the table, sets the flag and saves; failure empties the table and leaves the flag |
| `Calibration.CalibrationModule.LoadCalibration` | calibration.py:187-206 | a record at this resolution replaces the table and sets the flag; a missing record or another resolution changes nothing |
| `Calibration.CalibrationModule.ResetCalibration` | calibration.py:208-211 | the table is emptied and the flag cleared, so the status reports no points |
| `Calibration.CalibrationModule.Status` | calibration.py:213-219 | the status reports the flag, the number of entries and the resolution |
| `Calibration.CalibrationModule.PredictGazePosition` | calibration.py:118-171 | the prediction equals the specification `Predict` and lies on the screen |
| `Prediction.CombinedDistance` | calibration.py:135-144 | the combined pupil-plus-scaled-ratio distance is never negative |
| `Prediction.NeighbourLeTotal` | calibration.py:147 | the tuple order used by `sort()` is total |
| `Prediction.SortedPrefixClosest` | calibration.py:147-149 | in the sorted list, no neighbour left out is nearer than one kept |
| `Prediction.NearestAreClosest` | calibration.py:147-149 | `min(4, n)` neighbours are kept, drawn from the table, and none left out is nearer than any kept |
| `Prediction.NearestKeeps` | calibration.py:147-149 | every property all table neighbours share is shared by the nearest ones |
| `Prediction.NeighboursFromTable` | calibration.py:147-149 | the query has `min(4, n)` neighbours, all at a non-negative distance |
| `Prediction.NeighboursWithin` | calibration.py:147-149 | the neighbours carry screen points of the table |
| `Prediction.Weight` | calibration.py:156 | `1 / (dist + 1)` is positive and at most 1, with 1 exactly at distance 0 |
| `Prediction.TotalWeightPositive` | calibration.py:151-161 | with any neighbour the total weight is positive, so the `total_weight > 0` test always passes |
| `Prediction.WeightedSumAbove` | calibration.py:151-159 | coordinates at least `lo` give a weighted sum at least `lo` times the total weight |
| `Prediction.WeightedSumBelow` | calibration.py:151-159 | coordinates at most `hi` give a weighted sum at most `hi` times the total weight |
| `Prediction.NeighbourAverageWithin` | calibration.py:151-163 | the weighted average lies between the smallest and the largest neighbour coordinate |
| `Prediction.DistanceToNonNegative` | calibration.py:135-144 | under `np.sqrt` every entry's distance from the query is non-negative |
| `Prediction.PredictAbsentIff` | calibration.py:118-171 | there is no prediction iff the module is uncalibrated, a pupil or a ratio is missing, or the table has fewer than 3 entries |
| `Prediction.PredictOnScreen` | calibration.py:161-169 | every prediction lies in `[0, width] x [0, height]` |
| `Prediction.PredictWithinTable` | calibration.py:146-169 | a prediction lies in the clamped box spanned by the table's screen points |
| `Prediction.PredictSingleTarget` | calibration.py:146-169 | a table whose entries all name one on-screen point predicts that point |
| `Prediction.DistanceList` | calibration.py:135-144 | the distance loop builds exactly the specification's neighbour list |
| `Prediction.AccumulateStep` | calibration.py:155-159 | one loop iteration adds the neighbour's weight to the total and its weighted coordinate to the sum |
| `Prediction.AccumulateWeights` | calibration.py:151-159 | the weighting loop computes the total weight and both weighted sums of the specification |
| `Prediction.PredictGaze` | calibration.py:118-171 | the whole prediction procedure returns exactly `Predict` |
| `PreciseCalibrator.PreciseGazeCalibrator.constructor` | anxiety_tracker.py:11-20 | an empty, uncalibrated calibrator for the given screen |
| `PreciseCalibrator.PreciseGazeCalibrator.RunCalibration` | anxiety_tracker.py:22-136 | without a camera nothing changes; otherwise one entry per successful target is appended, and the run succeeds, sets the flag and saves iff at least 4 targets succeed; failure keeps the entries and the flag |
| `PreciseCalibrator.PreciseGazeCalibrator.ProcessTargets` | anxiety_tracker.py:97-124 | the loop over the targets appends exactly the successful outcomes in order and counts them |
| `PreciseCalibrator.PreciseGazeCalibrator.ProcessTarget` | anxiety_tracker.py:97-124 | a target succeeds iff it has at least 10 samples and filtering leaves some, and then exactly the averaged entry is appended |
| `PreciseCalibrator.PreciseGazeCalibrator.LoadCalibration` | anxiety_tracker.py:151-169 | a record at this resolution replaces the table and sets the flag; otherwise nothing changes |
| `PreciseCalibrator.PreciseGazeCalibrator.PredictGazePosition` | anxiety_tracker.py:171-223 | the prediction equals `Predict` over this table and lies on the screen |
| `Signals.BlinkTransitions` | data_processing.py:57-74 | one frame keeps the blink state consistent, makes the blinking flag follow the input, records a start on a rising edge and a duration exactly on a falling edge with a truthy start |
| `Signals.BlinkRunConsistent` | data_processing.py:57-74 | any run of frames keeps one duration per counted blink, a start time exactly while blinking, and a last blink time once a blink was counted |
| `Signals.BlinkDurationsNonNegative` | data_processing.py:66-72 | with non-decreasing timestamps every recorded duration is non-negative |
| `Signals.BlinkExamples` | data_processing.py:61-74 | a held blink is counted once with its held time; a blink starting at time 0.0 is never counted |
| `Signals.SquaredDistance` | data_processing.py:107-108 | the squared distance between two pixels is non-negative |
| `Signals.VelocitySample` | data_processing.py:88-96 | a new position adds at most one velocity |
| `Signals.VelocitySampleNonNegative` | data_processing.py:88-96 | every added velocity is non-negative |
| `Signals.SaccadeIffSquared` | data_processing.py:95-100 | the test `sqrt(d2) / dt > 300` is the test `d2 > (300 dt)^2` |
| `Signals.CenterZoneIffDistance` | data_processing.py:107-111 | the squared-distance centre test is the source's `sqrt(d2) <= 200` |
| `Signals.ZonesDisjoint` | data_processing.py:105-118 | on a screen larger than 601 pixels both ways, no position is in both the centre zone and the edge zone |
| `Signals.AvoidingIffDistance` | social_anxiety_tracker.py:186-191 | the squared-distance avoidance test is the source's `sqrt(d2) > 400` |
| `Signals.SmoothedWithin` | data_processing.py:42-55 | the smoothed point stays in any box holding the window and the new point |
| `Signals.SmoothedSteady` | data_processing.py:42-55 | a steady gaze is a fixed point of the smoother |
| `Signals.LookAwayAtMostCenter` | data_processing.py:148-166 | there are no more look-away events than centre positions |
| `Signals.LookAwayFrequencyBounds` | data_processing.py:148-166 | the look-away frequency is non-negative, and zero when no position was in the centre |
| `Signals.CenterDistancesCount` | data_processing.py:132-137 | one distance is collected per position in the centre zone |
| `Signals.CenterDistanceWithin` | data_processing.py:134-137 | a centre position's distance lies in `[0, 200]` |
| `Signals.CenterDistancesWithin` | data_processing.py:132-137 | every collected distance lies in `[0, 200]` |
| `Signals.CenterAccuracyWithin` | data_processing.py:128-146 | the centre accuracy is a fraction in `[0, 1]`, and 0 when no position was in the centre |
| `Signals.MovementsFacts` | social_anxiety_tracker.py:224-232 | under `np.sqrt` every movement between successive positions is non-negative, and it is zero exactly when the two positions coincide |
| `Scoring.Rate` | data_processing.py:172-173 | a per-minute rate is non-negative, 0 without elapsed time, and otherwise times the minutes gives the count |
| `Scoring.Ratio` | data_processing.py:175-176 | `count / max(1, total)` is non-negative, at most 1 when the count is at most the total, and times the total gives the count |
| `Scoring.MeanOrZeroNonNegative` | data_processing.py:178-179 | the mean of non-negative values, or 0 without values, is non-negative |
| `Scoring.BlinkVariance` | data_processing.py:186-189 | the variance of successive blink-duration differences is non-negative, and 0 with fewer than two durations |
| `Scoring.SessionMetricsWellFormed` | data_processing.py:168-189 | counters within the total and non-negative samples give non-negative rates and averages, and ratios in `[0, 1]` |
| `Scoring.TotalPointsAppend` | data_processing.py:192-238 | the points of concatenated indicator lists add up |
| `Scoring.RuleFacts` | data_processing.py:195-238 | each rule raises at most one indicator, and its points are that indicator's points, at most the rule's top tier |
| `Scoring.RulePointsMatch` | data_processing.py:195-238 | a rule's points are the points of the indicator it raises |
| `Scoring.RuleOwns` | data_processing.py:195-238 | a rule raises only its own indicators |
| `Scoring.UpToScore` | data_processing.py:192-238 | the score after the first `k` rules is the total points of the indicators they raised |
| `Scoring.UpToBounds` | data_processing.py:192-238 | the first `k` rules raise at most `k` indicators and score at most their top tiers |
| `Scoring.UpToMembership` | data_processing.py:192-238 | an indicator is raised by the first `k` rules iff its own rule is among them and raises it |
| `Scoring.ScoreMatchesIndicators` | data_processing.py:192-253 | the score is the total points of the reported indicators, at most 14 and below the reported maximum 15 |
| `Scoring.InIndicators` | data_processing.py:192-238 | an indicator is reported iff its own rule raises it |
| `Scoring.BlinkIndicatorConditions` | data_processing.py:195-215 | each blink indicator is reported iff its threshold condition holds |
| `Scoring.GazeIndicatorConditions` | data_processing.py:217-238 | each gaze indicator is reported iff its threshold condition holds; moderate avoidance only without strong avoidance |
| `Scoring.ScoreReachesFourteen` | data_processing.py:192-238 | the bound 14 is attained |
| `Scoring.SeverityMonotone` | data_processing.py:240-248 | a higher score never gives a milder tier; High iff the score is at least 8, none iff it is below 2 |
| `Scoring.Assess` | data_processing.py:240-268 | the reported score is the indicators' total points, at most 14 and below the maximum, and the tier is the score's tier |
| `SessionAnalysis.DataProcessing.constructor` | data_processing.py:7-40 | a fresh session at the given time, with the centre at half the screen size, satisfying the invariant |
| `SessionAnalysis.DataProcessing.SmoothGazeData` | data_processing.py:42-55 | no input changes nothing; otherwise the window becomes the last 5 inputs and the result is the input while the window is short, else the truncated mean |
| `SessionAnalysis.DataProcessing.ProcessBlinkData` | data_processing.py:57-74 | the blink state takes one step of the state machine and the invariant is kept |
| `SessionAnalysis.DataProcessing.AnalyzeGazeZones` | data_processing.py:105-118 | each counter goes up by one exactly when the newest position is in its zone, so each again counts its zone over all positions |
| `SessionAnalysis.DataProcessing.RecordVelocity` | data_processing.py:87-100 | the velocity from the latest recent gaze is appended when time has passed, and the saccade count stays the number of velocities above 300 |
| `SessionAnalysis.DataProcessing.ProcessGazePosition` | data_processing.py:76-103 | the smoothed position is stored with its velocity, and the invariant is kept; no input changes nothing |
| `SessionAnalysis.DataProcessing.ProcessFrame` | data_processing.py:120-126 | one more frame, one blink step, and the gaze processed when present, keeping the invariant; without a gaze the raw history, the recent window, the positions and the velocities are unchanged; with one, the raw history gains exactly that gaze |
| `SessionAnalysis.DataProcessing.CalculateCenterGazeAccuracy` | data_processing.py:128-146 | the accuracy loop computes the specification's accuracy, a fraction in `[0, 1]` |
| `SessionAnalysis.DataProcessing.CalculateLookAwayFrequency` | data_processing.py:148-166 | the look-away loop computes the specification's frequency, non-negative and zero without centre positions |
| `SessionAnalysis.DataProcessing.GetComprehensiveAnalysis` | data_processing.py:168-268 | the assessment scores the current metrics (score at most 14, ratios fractions), with the accuracy and the look-away frequency, both zero without centre positions |
| `SessionAnalysis.DataProcessing.ResetSession` | data_processing.py:270-284 | every counter and buffer emptied and the session restarted, satisfying the invariant |
| `AnxietyDetection.AdvancedAnxietyDetector.constructor` | anxiety_tracker.py:226-255 | a fresh detector at the given time, satisfying the invariant |
| `AnxietyDetection.AdvancedAnxietyDetector.TrackBlink` | anxiety_tracker.py:264-277 | one blink step, keeping the invariant and everything else |
| `AnxietyDetection.AdvancedAnxietyDetector.RecordVelocity` | anxiety_tracker.py:284-296 | the velocity from the latest recent gaze is appended when time has passed, and the saccade count stays the number above 300 |
| `AnxietyDetection.AdvancedAnxietyDetector.CountZones` | anxiety_tracker.py:304-318 | the centre and edge counters go up exactly when the position is in their zone of the assumed 1920x1080 screen |
| `AnxietyDetection.AdvancedAnxietyDetector.AnalyzeGaze` | anxiety_tracker.py:280-318 | the raw position is stored with its velocity, the recent list stays the last 10 positions, and the counters stay exact |
| `AnxietyDetection.AdvancedAnxietyDetector.AnalyzeFrame` | anxiety_tracker.py:257-318 | one more frame, one blink step, and the gaze analysed when present, keeping the invariant |
| `AnxietyDetection.AdvancedAnxietyDetector.ValidAllowsAssessment` | anxiety_tracker.py:324-331 | a detector keeping its invariant has one duration per blink, zone counts within the number of positions and non-negative velocities, so the ratios and averages the assessment reads are well defined |
| `AnxietyDetection.AdvancedAnxietyDetector.GetComprehensiveAssessment` | anxiety_tracker.py:320-412 | the score is the indicators' total points, at most 14, with its tier; ratios are fractions and rates non-negative; with no gaze positions strong centre avoidance is always reported |
| `SocialDetection.RegisterBlinkDebounced` | social_anxiety_tracker.py:176-179 | one frame keeps the counted blink times more than 0.3 s apart, and adds exactly `now` when it counts a blink |
| `SocialDetection.BlinkTimestampsRunDebounced` | social_anxiety_tracker.py:176-179 | any run of frames keeps the blink times debounced and counts at most one blink per frame |
| `SocialDetection.DebouncedSpan` | social_anxiety_tracker.py:176-179 | `n` counted blinks span at least `0.3 (n - 1)` seconds |
| `SocialDetection.SteadyIsNotRapid` | social_anxiety_tracker.py:224-238 | recent steps of at most 100 pixels never raise the rapid-movement indicator |
| `SocialDetection.JumpyIsRapid` | social_anxiety_tracker.py:224-238 | recent steps all longer than 100 pixels always raise it |
| `SocialDetection.AddIfScore` | social_anxiety_tracker.py:213-238 | appending a fired indicator adds its points to the score |
| `SocialDetection.AddIfHas` | social_anxiety_tracker.py:213-238 | appending a fired indicator makes it present and leaves the others unchanged |
| `SocialDetection.SocialIndicatorsPresent` | social_anxiety_tracker.py:213-238 | each indicator is reported iff its rule fires |
| `SocialDetection.SocialIndicatorConditions` | social_anxiety_tracker.py:213-238 | the score is 2, 3 and 1 for the fired blink, avoidance and movement rules, so at most 6 |
| `SocialDetection.SeverityOfPoints` | social_anxiety_tracker.py:248-257 | the tier of each combination of fired rules |
| `SocialDetection.SocialSeverityRules` | social_anxiety_tracker.py:206-257 | High iff avoidance and frequent blinking both fire; none iff no rule fires; Mild iff no avoidance and exactly one of blinking and movement |
| `SocialDetection.SocialSeverityMonotone` | social_anxiety_tracker.py:248-257 | a higher score never gives a milder tier |
| `SocialDetection.SocialAnxietyDetector.constructor` | social_anxiety_tracker.py:159-169 | a fresh detector at the given time, satisfying the invariant |
| `SocialDetection.SocialAnxietyDetector.CountBlink` | social_anxiety_tracker.py:176-179 | a blinking frame more than 0.3 s after the last counted blink adds one blink at `now`; otherwise nothing changes |
| `SocialDetection.SocialAnxietyDetector.RecordGaze` | social_anxiety_tracker.py:182-191 | the position is stored, and counted as avoidance exactly when it is more than 400 pixels from (960, 540) |
| `SocialDetection.SocialAnxietyDetector.AnalyzeFrame` | social_anxiety_tracker.py:171-191 | the debounced blink step and the gaze step together, keeping the invariant |
| `SocialDetection.SocialAnxietyDetector.GetBlinkRate` | social_anxiety_tracker.py:193-198 | blinks per minute: non-negative, 0 without elapsed time, and times the minutes gives the count |
| `SocialDetection.SocialAnxietyDetector.GetGazeAvoidanceRatio` | social_anxiety_tracker.py:200-204 | 0 without positions; otherwise times the number of positions gives the avoidance count, hence a fraction under the invariant |
| `SocialDetection.SocialAnxietyDetector.RecentMovements` | social_anxiety_tracker.py:224-232 | the movement loop computes the movements between the last 10 positions |
| `SocialDetection.SocialAnxietyDetector.DetectRapidMovement` | social_anxiety_tracker.py:224-238 | the rapid-movement section decides exactly the specification's test |
| `SocialDetection.SocialAnxietyDetector.DetectAnxietyIndicators` | social_anxiety_tracker.py:206-246 | the report carries the blink rate, the avoidance ratio, the indicators of the three rules, their score (at most 6) and its tier |

## Left out

- Camera capture, face and pupil detection, and the blink detector
  (`data_acquisition.py`, OpenCV/dlib). The blink flag, the pupils and the
  gaze ratios are parameters.
- `collect_samples_for_point` (calibration.py:38-65) and the sample-collection
  loop of `run_calibration` (anxiety_tracker.py:40-95): they poll the camera
  against the clock and draw on screen. Their results are given as batches of
  samples, one per target.
- The JSON file. Saving is modelled as building the record, and loading as
  receiving the stored record or nothing. A missing file, an unreadable file
  and a parse error all become `None`.
- `time.time()` is a `now` parameter.
  - `get_comprehensive_analysis` reads the clock twice (data_processing.py:169
    and 165); the model uses one reading for both.
  - `detect_anxiety_indicators` reads the clock through `get_blink_rate`.
- Floating point is modelled by exact reals, with no rounding or overflow.
- `np.sqrt` is the parameter `root`, constrained by `IsSqrt`.
- `np.median` is computed by an insertion sort, which is not NumPy's algorithm
  but gives the same value.
- Indicator messages and assessment strings are tags (`Indicator`,
  `SocialIndicator`, `Severity`). The formatted numbers inside the messages
  are not modelled.
- Python truthiness of the gaze and pupil tuples is modelled as `Option`:
  `None` for a missing value, and any present tuple is truthy.
- The `smoothed is None` branch of `process_gaze_position`
  (data_processing.py:82-83) is unreachable: the smoother returns a point for
  every present input.
- `SocialDetection.SocialAnxietyDetector.GetGazeAvoidanceRatio`: the bound
  `r <= 1` is stated only under the detector invariant, because the source
  divides two independent attributes.
- Not part of this model:
  - the social tracker's own `GazeCalibrator` (social_anxiety_tracker.py:17-152);
  - `gaze_calibration.py`, `visualization_ui.py`, `data_collector.py`,
    `main.py`, `simple_demo.py` and `test_setup.py`;
  - both `SocialAnxietyApp` classes: display, keyboard handling and the result
    windows.
