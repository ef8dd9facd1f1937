/** `PreciseGazeCalibrator`, the older calibrator: the same filtering,
    averaging and prediction, a 10-sample threshold per target, the whole
    five-target run in one method, and no clearing of the table on failure. */
module PreciseCalibrator {
  import opened Numerics
  import opened CalibrationModel
  import opened Prediction

  /** A target whose batch has fewer samples than this is rejected. */
  const MinRunSamples: nat := 10

  class PreciseGazeCalibrator {
    const screenWidth: int
    const screenHeight: int
    var calibrationData: seq<Entry>
    var isCalibrated: bool

    constructor (width: int, height: int)
      ensures screenWidth == width && screenHeight == height
      ensures calibrationData == [] && !isCalibrated
    {
      screenWidth, screenHeight := width, height;
      calibrationData, isCalibrated := [], false;
    }

    /** The sample-processing part of `run_calibration`. `webcamOpened` is
        whether the camera could be opened; `batches[i]` is what was collected
        at the i-th target. Each target's batch either appends one averaged
        entry or nothing; the run succeeds, sets the flag and saves a record
        when at least 4 targets succeed. A failed run keeps what it appended
        and leaves the flag as it was. */
    method RunCalibration(webcamOpened: bool, batches: seq<seq<Sample>>, now: real)
      returns (ok: bool, successfulPoints: nat, saved: Option<CalibrationRecord>)
      requires |batches| == |CalibrationTargets(screenWidth, screenHeight)|
      modifies this
      ensures !webcamOpened ==>
        && !ok && successfulPoints == 0 && saved == None
        && calibrationData == old(calibrationData) && isCalibrated == old(isCalibrated)
      ensures webcamOpened ==>
        var added := BatchEntries(batches, CalibrationTargets(screenWidth, screenHeight), MinRunSamples);
        && calibrationData == old(calibrationData) + added
        && successfulPoints == |added|
        && (ok <==> successfulPoints >= MinSuccessfulPoints)
        && (ok ==> isCalibrated && saved == Some(CalibrationRecord(screenWidth, screenHeight, calibrationData, now)))
        && (!ok ==> isCalibrated == old(isCalibrated) && saved == None)
    {
      var points := CalibrationTargets(screenWidth, screenHeight);
      if !webcamOpened {
        return false, 0, None;
      }
      successfulPoints := ProcessTargets(batches, points);
      if successfulPoints >= MinSuccessfulPoints {
        isCalibrated := true;
        return true, successfulPoints, Some(CalibrationRecord(screenWidth, screenHeight, calibrationData, now));
      }
      return false, successfulPoints, None;
    }

    /** The loop of `run_calibration` over the targets: filter, average and
        append, counting the targets that succeed. */
    method ProcessTargets(batches: seq<seq<Sample>>, points: seq<ScreenPoint>) returns (successfulPoints: nat)
      requires |batches| == |points|
      modifies this
      ensures calibrationData == old(calibrationData) + BatchEntries(batches, points, MinRunSamples)
      ensures successfulPoints == |BatchEntries(batches, points, MinRunSamples)|
      ensures isCalibrated == old(isCalibrated)
    {
      ghost var outcomes := Outcomes(batches, points, MinRunSamples);
      successfulPoints := 0;
      for i := 0 to |points|
        invariant calibrationData == old(calibrationData) + Somes(outcomes[..i])
        invariant successfulPoints == |Somes(outcomes[..i])|
        invariant isCalibrated == old(isCalibrated)
      {
        SomesStep(outcomes, i);
        var added := ProcessTarget(batches[i], points[i].x, points[i].y);
        if added {
          successfulPoints := successfulPoints + 1;
        }
      }
      assert outcomes[..|points|] == outcomes;
    }

    /** One target of `run_calibration`: at least 10 samples, filtered around
        the medians, averaged and appended when any survive. */
    method ProcessTarget(samples: seq<Sample>, x: int, y: int) returns (added: bool)
      modifies this
      ensures added <==> BatchEntry(samples, MinRunSamples, x, y).Some?
      ensures calibrationData == old(calibrationData)
        + if added then [BatchEntry(samples, MinRunSamples, x, y).value] else []
      ensures isCalibrated == old(isCalibrated)
    {
      if |samples| < MinRunSamples {
        return false;
      }
      var filtered := FilterOutliers(samples);
      assert BatchEntry(samples, MinRunSamples, x, y) == EntryOf(filtered, x, y);
      if |filtered| > 0 {
        calibrationData := calibrationData + [AverageEntry(filtered, x, y)];
        return true;
      }
      return false;
    }

    /** `load_calibration`: as for the newer module, a record at this
        resolution replaces the table and sets the flag; otherwise nothing
        changes. */
    method LoadCalibration(stored: Option<CalibrationRecord>) returns (ok: bool)
      modifies this
      ensures ok <==> Loaded(stored, screenWidth, screenHeight).Some?
      ensures ok ==> calibrationData == stored.value.points && isCalibrated
      ensures !ok ==> calibrationData == old(calibrationData) && isCalibrated == old(isCalibrated)
    {
      if stored.Some? {
        var data := stored.value;
        if data.screenWidth == screenWidth && data.screenHeight == screenHeight {
          calibrationData := data.points;
          isCalibrated := true;
          return true;
        }
      }
      return false;
    }

    /** `predict_gaze_position`: the same k-nearest-neighbour prediction over
        this calibrator's table. */
    method PredictGazePosition(left: Option<Pupil>, right: Option<Pupil>, hRatio: Option<real>, vRatio: Option<real>,
                               root: real -> real) returns (r: Option<ScreenPoint>)
      requires IsSqrt(root)
      ensures r == Predict(isCalibrated, calibrationData, screenWidth, screenHeight, left, right, hRatio, vRatio, root)
      ensures 0 <= screenWidth && 0 <= screenHeight && r.Some? ==>
        0 <= r.value.x <= screenWidth && 0 <= r.value.y <= screenHeight
    {
      r := PredictGaze(isCalibrated, calibrationData, screenWidth, screenHeight, left, right, hRatio, vRatio, root);
      if 0 <= screenWidth && 0 <= screenHeight {
        PredictOnScreen(isCalibrated, calibrationData, screenWidth, screenHeight, left, right, hRatio, vRatio, root);
      }
    }
  }
}
