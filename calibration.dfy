/** `CalibrationModule`: the correspondence table and its calibrated flag,
    filled one target at a time, completed all-or-nothing, saved as a record,
    reloaded behind a resolution check, and used for gaze prediction. */
module Calibration {
  import opened Numerics
  import opened CalibrationModel
  import opened Prediction

  /** Batches with fewer samples than this are rejected. */
  const MinSamplesPerPoint: nat := 5

  /** `get_calibration_status`. */
  datatype CalibrationStatus = CalibrationStatus(isCalibrated: bool, numPoints: nat, screenWidth: int, screenHeight: int)

  class CalibrationModule {
    const screenWidth: int
    const screenHeight: int
    var calibrationData: seq<Entry>
    var isCalibrated: bool

    constructor (width: int, height: int)
      ensures screenWidth == width && screenHeight == height
      ensures calibrationData == [] && !isCalibrated
    {
      screenWidth, screenHeight := width, height;
      calibrationData, isCalibrated := [], false;
    }

    /** `get_calibration_points`: the five targets for this screen. */
    function CalibrationPoints(): (ts: seq<ScreenPoint>)
      ensures |ts| == 5
      ensures screenWidth >= 2 * TargetMargin && screenHeight >= 2 * TargetMargin ==>
        forall t :: t in ts ==>
          TargetMargin <= t.x <= screenWidth - TargetMargin && TargetMargin <= t.y <= screenHeight - TargetMargin
    {
      var ts := CalibrationTargets(screenWidth, screenHeight);
      if screenWidth >= 2 * TargetMargin && screenHeight >= 2 * TargetMargin then
        TargetsOnScreen(screenWidth, screenHeight);
        ts
      else ts
    }

    /** `process_calibration_point`: a batch of at least 5 samples whose
        filtering leaves something appends the averaged entry; anything else
        changes nothing. */
    method ProcessCalibrationPoint(samples: seq<Sample>, screenX: int, screenY: int) returns (ok: bool)
      modifies this
      ensures ok <==> BatchEntry(samples, MinSamplesPerPoint, screenX, screenY).Some?
      ensures calibrationData == old(calibrationData)
        + if ok then [BatchEntry(samples, MinSamplesPerPoint, screenX, screenY).value] else []
      ensures isCalibrated == old(isCalibrated)
    {
      if |samples| < MinSamplesPerPoint {
        return false;
      }
      var filtered := FilterOutliers(samples);
      if |filtered| > 0 {
        calibrationData := calibrationData + [AverageEntry(filtered, screenX, screenY)];
        return true;
      }
      return false;
    }

    /** `save_calibration`: the record written out, stamped with `now`. */
    function SaveCalibration(now: real): (r: CalibrationRecord)
      reads this
      ensures Loaded(Some(r), screenWidth, screenHeight) == Some(calibrationData)
      ensures r.timestamp == now
    {
      CalibrationRecord(screenWidth, screenHeight, calibrationData, now)
    }

    /** `complete_calibration`: with at least 4 successful targets the table
        is kept, marked calibrated and saved; otherwise the table is emptied
        and the flag left as it was. */
    method CompleteCalibration(successfulPoints: int, now: real) returns (ok: bool, saved: Option<CalibrationRecord>)
      modifies this
      ensures ok <==> successfulPoints >= MinSuccessfulPoints
      ensures ok ==> isCalibrated && calibrationData == old(calibrationData)
      ensures ok ==> saved == Some(CalibrationRecord(screenWidth, screenHeight, calibrationData, now))
      ensures !ok ==> calibrationData == [] && isCalibrated == old(isCalibrated) && saved == None
    {
      if successfulPoints >= MinSuccessfulPoints {
        isCalibrated := true;
        saved := Some(SaveCalibration(now));
        return true, saved;
      }
      calibrationData := [];
      return false, None;
    }

    /** `load_calibration`: a stored record at this resolution replaces the
        table and marks the module calibrated; a missing or unreadable record
        or another resolution changes nothing. */
    method LoadCalibration(stored: Option<CalibrationRecord>) returns (ok: bool)
      modifies this
      ensures ok <==> Loaded(stored, screenWidth, screenHeight).Some?
      ensures ok ==> calibrationData == stored.value.points && isCalibrated
      ensures !ok ==> calibrationData == old(calibrationData) && isCalibrated == old(isCalibrated)
    {
      if stored.Some? {
        var data := stored.value;
        if data.screenWidth == screenWidth && data.screenHeight == screenHeight {
          calibrationData := data.points;
          isCalibrated := true;
          return true;
        }
      }
      return false;
    }

    /** `reset_calibration`. */
    method ResetCalibration()
      modifies this
      ensures calibrationData == [] && !isCalibrated
      ensures Status() == CalibrationStatus(false, 0, screenWidth, screenHeight)
    {
      calibrationData := [];
      isCalibrated := false;
    }

    /** `get_calibration_status`. */
    function Status(): (s: CalibrationStatus)
      reads this
      ensures s.isCalibrated == isCalibrated && s.numPoints == |calibrationData|
      ensures s.screenWidth == screenWidth && s.screenHeight == screenHeight
    {
      CalibrationStatus(isCalibrated, |calibrationData|, screenWidth, screenHeight)
    }

    /** `predict_gaze_position`, with the detector's current ratios and
        `np.sqrt` passed in. */
    method PredictGazePosition(left: Option<Pupil>, right: Option<Pupil>, hRatio: Option<real>, vRatio: Option<real>,
                               root: real -> real) returns (r: Option<ScreenPoint>)
      requires IsSqrt(root)
      ensures r == Predict(isCalibrated, calibrationData, screenWidth, screenHeight, left, right, hRatio, vRatio, root)
      ensures 0 <= screenWidth && 0 <= screenHeight && r.Some? ==>
        0 <= r.value.x <= screenWidth && 0 <= r.value.y <= screenHeight
    {
      r := PredictGaze(isCalibrated, calibrationData, screenWidth, screenHeight, left, right, hRatio, vRatio, root);
      if 0 <= screenWidth && 0 <= screenHeight {
        PredictOnScreen(isCalibrated, calibrationData, screenWidth, screenHeight, left, right, hRatio, vRatio, root);
      }
    }
  }
}
