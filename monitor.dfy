/**
 * `LoadCellMonitor`: the state the monitor window keeps between events
 * (sample buffers, session clock origin, calibration, recording session)
 * and the event handlers that update it in place. Clock readings, the
 * formatted wall-clock text and the operator's Yes/No answers are passed in.
 */
module Monitor {
  import opened Wrappers
  import opened Series
  import opened SampleStore
  import opened Calibration

  /** One recorded row: wall-clock text, seconds since recording started, raw value, calibrated grams. */
  datatype Row = Row(timestamp: string, recordingTime: real, raw: real, calibrated: real)

  class LoadCellMonitor {
    /** Seconds since the session's time origin, one per sample (`buf_t`). */
    var bufT: seq<real>
    /** Raw values (`buf_g`). */
    var bufG: seq<real>
    /** Calibrated grams (`buf_g_calibrated`). */
    var bufCal: seq<real>
    /** Clock reading of the time origin (`start_time`); None until the first sample. */
    var startTime: Option<real>
    /** Clock reading when recording started (`recording_start_time`). */
    var recordingStartTime: Option<real>
    /** The eight calibration attributes. */
    var cal: Params
    /** Width of the displayed window in seconds (`window_sec`). */
    var windowSec: int
    var isRecording: bool
    /** Rows captured since recording started (`recorded_data`). */
    var recordedData: seq<Row>

    /** The three buffers are parallel and bounded, and a recording always has a start time. */
    ghost predicate Valid()
      reads this
    {
      && |bufT| == |bufG| == |bufCal| <= Capacity
      && (isRecording <==> recordingStartTime.Some?)
      && 5 <= windowSec <= 86400
    }

    /** `__init__` with the default calibration (no settings file loaded yet). */
    constructor ()
      ensures Valid()
      ensures bufT == [] && bufG == [] && bufCal == []
      ensures startTime == None && recordingStartTime == None
      ensures cal == Initial && windowSec == 30
      ensures !isRecording && recordedData == []
    {
      bufT, bufG, bufCal := [], [], [];
      startTime, recordingStartTime := None, None;
      cal := Initial;
      windowSec := 30;
      isRecording := false;
      recordedData := [];
    }

    /**
     * `on_data_received` for raw value `g` at clock reading `now`, with
     * `wallClock` the formatted local time: one entry on each buffer, and a
     * row when recording.
     */
    method OnDataReceived(g: real, now: real, wallClock: string)
      requires Valid()
      modifies this
      ensures Valid()
      ensures startTime == Some(if old(startTime).Some? then old(startTime).value else now)
      ensures bufT == Push(old(bufT), now - startTime.value)
      ensures bufG == Push(old(bufG), g)
      ensures bufCal == Push(old(bufCal), Apply(cal, g))
      ensures old(startTime).None? ==> Last(bufT) == 0.0
      ensures NonDecreasing(old(bufT)) && (old(bufT) == [] || Last(old(bufT)) <= Last(bufT))
              ==> NonDecreasing(bufT)
      ensures recordedData
              == if isRecording
                 then old(recordedData) + [Row(wallClock, now - recordingStartTime.value, g, Apply(cal, g))]
                 else old(recordedData)
      ensures cal == old(cal) && windowSec == old(windowSec)
      ensures isRecording == old(isRecording) && recordingStartTime == old(recordingStartTime)
    {
      var origin := if startTime.Some? then startTime.value else now;
      var relativeTime := now - origin;
      var calibrated := Apply(cal, g);
      if NonDecreasing(bufT) && (bufT == [] || Last(bufT) <= relativeTime) {
        PushKeepsOrder(bufT, relativeTime);
      }
      var rows := recordedData;
      if isRecording && recordingStartTime.Some? {
        rows := rows + [Row(wallClock, now - recordingStartTime.value, g, calibrated)];
      }
      startTime, bufT, bufG, bufCal, recordedData :=
        Some(origin), Push(bufT, relativeTime), Push(bufG, g), Push(bufCal, calibrated), rows;
    }

    /** `clear_graph` at clock reading `now`: empties the buffers and makes `now` the time origin. */
    method ClearGraph(now: real)
      requires Valid()
      modifies this
      ensures Valid()
      ensures bufT == [] && bufG == [] && bufCal == []
      ensures startTime == Some(now)
      ensures cal == old(cal) && windowSec == old(windowSec) && recordedData == old(recordedData)
      ensures isRecording == old(isRecording) && recordingStartTime == old(recordingStartTime)
    {
      bufT, bufG, bufCal := [], [], [];
      startTime := Some(now);
    }

    /** `clear_data` with the operator's answer: empties buffers and recorded rows, keeps the time origin. */
    method ClearData(confirmed: bool)
      requires Valid()
      modifies this
      ensures Valid()
      ensures confirmed ==> bufT == [] && bufG == [] && bufCal == [] && recordedData == []
      ensures !confirmed ==> bufT == old(bufT) && bufG == old(bufG) && bufCal == old(bufCal)
                             && recordedData == old(recordedData)
      ensures startTime == old(startTime) && cal == old(cal) && windowSec == old(windowSec)
      ensures isRecording == old(isRecording) && recordingStartTime == old(recordingStartTime)
    {
      if confirmed {
        bufT, bufG, bufCal := [], [], [];
        recordedData := [];
      }
    }

    /** `perform_zero_calibration`. */
    method PerformZeroCalibration() returns (notice: Notice)
      requires Valid()
      modifies this
      ensures Valid()
      ensures Step(cal, notice) == ZeroCalibration(old(cal), bufG)
      ensures bufT == old(bufT) && bufG == old(bufG) && bufCal == old(bufCal) && startTime == old(startTime)
      ensures windowSec == old(windowSec) && recordedData == old(recordedData)
      ensures isRecording == old(isRecording) && recordingStartTime == old(recordingStartTime)
    {
      if |bufG| < RecentCount {
        return NotEnoughData;
      }
      cal := cal.(zeroOffset := RecentMean(bufG));
      cal := cal.(mode := 0);
      notice := ZeroDone;
    }

    /** `perform_calibration` with the dialog's request and the operator's answer to the prompt. */
    method PerformCalibration(req: Request, confirmed: bool) returns (notice: Notice)
      requires Valid()
      modifies this
      ensures Valid()
      ensures Step(cal, notice) == Calibrate(old(cal), bufG, req, confirmed)
      ensures bufT == old(bufT) && bufG == old(bufG) && bufCal == old(bufCal) && startTime == old(startTime)
      ensures windowSec == old(windowSec) && recordedData == old(recordedData)
      ensures isRecording == old(isRecording) && recordingStartTime == old(recordingStartTime)
    {
      if |bufG| < RecentCount {
        return NotEnoughData;
      }
      var c := cal.(mode := req.mode);
      if req.mode == 0 {
        cal := c;
        notice := PerformZeroCalibration();
        return;
      }
      var currentRaw := RecentMean(bufG);
      if req.mode == 1 {
        if !confirmed {
          notice := Declined;
        } else {
          c := c.(rawZero := c.zeroOffset);
          c := c.(rawPoint1 := currentRaw);
          c := c.(weight1 := req.weight1);
          if currentRaw - c.rawZero != 0.0 {
            c := c.(scaleFactor := c.weight1 / (currentRaw - c.rawZero));
            notice := OnePointDone;
          } else {
            notice := ZeroDifference;
          }
        }
      } else if req.mode == 2 {
        if !confirmed {
          notice := Declined;
        } else if c.rawPoint1 == 0.0 {
          c := c.(rawPoint1 := currentRaw);
          c := c.(weight1 := req.weight1);
          notice := FirstPointDone;
        } else {
          c := c.(rawPoint2 := currentRaw);
          c := c.(weight2 := req.weight2);
          notice := TwoPointDone;
        }
      } else {
        notice := Silent;
      }
      cal := c;
    }

    /**
     * `load_calibration_from_file`: `settings` is the decoded JSON object,
     * or None when the file cannot be opened or decoded (a warning, no change).
     */
    method LoadCalibrationFromFile(settings: Option<map<string, Value>>)
      requires Valid()
      modifies this
      ensures Valid()
      ensures cal == if settings.Some? then FromSettings(settings.value) else old(cal)
      ensures bufT == old(bufT) && bufG == old(bufG) && bufCal == old(bufCal) && startTime == old(startTime)
      ensures windowSec == old(windowSec) && recordedData == old(recordedData)
      ensures isRecording == old(isRecording) && recordingStartTime == old(recordingStartTime)
    {
      if settings.None? {
        return;
      }
      var m := settings.value;
      cal := cal.(mode := ModeOr(m, "calibration_mode", 0));
      cal := cal.(zeroOffset := NumberOr(m, "zero_offset", 0.0));
      cal := cal.(scaleFactor := NumberOr(m, "scale_factor", 1.0));
      cal := cal.(rawZero := NumberOr(m, "cal_raw_zero", 0.0));
      cal := cal.(rawPoint1 := NumberOr(m, "cal_raw_point1", 0.0));
      cal := cal.(rawPoint2 := NumberOr(m, "cal_raw_point2", 0.0));
      cal := cal.(weight1 := NumberOr(m, "cal_weight1", 100.0));
      cal := cal.(weight2 := NumberOr(m, "cal_weight2", 500.0));
    }

    /** `update_window_size` with the spin box's value (the box allows 5 to 86400 seconds). */
    method UpdateWindowSize(seconds: int)
      requires Valid()
      requires 5 <= seconds <= 86400
      modifies this
      ensures Valid()
      ensures windowSec == seconds
      ensures bufT == old(bufT) && bufG == old(bufG) && bufCal == old(bufCal) && startTime == old(startTime)
      ensures cal == old(cal) && recordedData == old(recordedData)
      ensures isRecording == old(isRecording) && recordingStartTime == old(recordingStartTime)
    {
      windowSec := seconds;
    }

    /**
     * `toggle_recording` at clock reading `now`: starting clears the rows and
     * stamps the start; stopping clears the start and keeps the rows.
     */
    method ToggleRecording(now: real)
      requires Valid()
      modifies this
      ensures Valid()
      ensures old(isRecording) ==> !isRecording && recordingStartTime == None && recordedData == old(recordedData)
      ensures !old(isRecording) ==> isRecording && recordingStartTime == Some(now) && recordedData == []
      ensures bufT == old(bufT) && bufG == old(bufG) && bufCal == old(bufCal) && startTime == old(startTime)
      ensures cal == old(cal) && windowSec == old(windowSec)
    {
      if isRecording {
        isRecording := false;
        recordingStartTime := None;
      } else {
        isRecording := true;
        recordedData := [];
        recordingStartTime := Some(now);
      }
    }
  }

  /**
   * A recording session: start at clock 100, three samples at 101, 102 and
   * 103, stop, start again at 200. The first session's rows carry 1, 2 and 3
   * seconds and their raw and calibrated values; restarting empties the rows.
   */
  method RecordingSession() returns (rows: seq<Row>, afterRestart: seq<Row>)
    ensures |rows| == 3
    ensures forall i :: 0 <= i < 3 ==> rows[i].recordingTime == (i + 1) as real
    ensures forall i :: 0 <= i < 3 ==> rows[i].raw == 10.0 * (i + 1) as real && rows[i].calibrated == rows[i].raw
    ensures afterRestart == []
  {
    var m := new LoadCellMonitor();
    m.ToggleRecording(100.0);
    m.OnDataReceived(10.0, 101.0, "t1");
    m.OnDataReceived(20.0, 102.0, "t2");
    m.OnDataReceived(30.0, 103.0, "t3");
    m.ToggleRecording(104.0);
    rows := m.recordedData;
    m.ToggleRecording(200.0);
    afterRestart := m.recordedData;
  }
}
