/**
 * The calibration model of `LoadCellMonitor`: the eight calibration
 * attributes, the raw-count-to-grams map `apply_calibration`, the effect of
 * the zero and the one/two-point calibration commands on those attributes,
 * and the flat settings record that is saved and loaded.
 */
module Calibration {
  import opened Wrappers
  import opened Series

  /** Calibration attributes of the monitor; `mode` 0 is zero offset only, 1 one-point, 2 two-point. */
  datatype Params = Params(
    mode: int,
    zeroOffset: real,
    scaleFactor: real,
    rawZero: real,
    rawPoint1: real,
    rawPoint2: real,
    weight1: real,
    weight2: real)

  /** The values the monitor starts with. */
  const Initial := Params(0, 0.0, 1.0, 0.0, 0.0, 0.0, 100.0, 500.0)

  /** Number of most recent raw samples averaged by every calibration command. */
  const RecentCount: nat := 10

  /** The mean of the ten most recent raw samples (`np.mean(list(buf_g)[-10:])`). */
  function RecentMean(raws: seq<real>): (r: real)
    requires |raws| >= RecentCount
    ensures Min(raws[|raws| - RecentCount..]) <= r <= Max(raws[|raws| - RecentCount..])
  {
    Mean(raws[|raws| - RecentCount..])
  }

  /** Slope of the two-point line. */
  function Slope(c: Params): (r: real)
    requires c.rawPoint2 != c.rawPoint1
  {
    (c.weight2 - c.weight1) / (c.rawPoint2 - c.rawPoint1)
  }

  /**
   * `apply_calibration`: grams for a raw count under the current calibration.
   * Zero-offset mode, and two-point mode whose points coincide, read 0 g at
   * the zero offset; one-point mode reads 0 g at its zero reference;
   * two-point mode with distinct points is the line through both points; a
   * mode the monitor does not know passes the raw count through.
   */
  function Apply(c: Params, raw: real): (r: real)
    ensures (c.mode == 0 || (c.mode == 2 && c.rawPoint2 == c.rawPoint1)) && raw == c.zeroOffset ==> r == 0.0
    ensures c.mode == 1 && raw == c.rawZero ==> r == 0.0
    ensures c.mode == 2 && c.rawPoint2 != c.rawPoint1 && raw == c.rawPoint1 ==> r == c.weight1
    ensures c.mode == 2 && c.rawPoint2 != c.rawPoint1 && raw == c.rawPoint2 ==> r == c.weight2
    ensures c.mode !in {0, 1, 2} ==> r == raw
  {
    if c.mode == 0 then raw - c.zeroOffset
    else if c.mode == 1 then (raw - c.rawZero) * c.scaleFactor
    else if c.mode == 2 then
      if c.rawPoint2 != c.rawPoint1 then
        SlopeSpansPoints(c);
        c.weight1 + Slope(c) * (raw - c.rawPoint1)
      else raw - c.zeroOffset
    else raw
  }

  /** The slope times the distance between the two points is the difference of their weights. */
  lemma SlopeSpansPoints(c: Params)
    requires c.rawPoint2 != c.rawPoint1
    ensures Slope(c) * (c.rawPoint2 - c.rawPoint1) == c.weight2 - c.weight1
  {
    var d := c.rawPoint2 - c.rawPoint1;
    assert (c.weight2 - c.weight1) / d * d == c.weight2 - c.weight1;
  }

  /** Grams per raw count of `Apply`, whatever the mode. */
  function Gain(c: Params): (r: real)
  {
    if c.mode == 1 then c.scaleFactor
    else if c.mode == 2 && c.rawPoint2 != c.rawPoint1 then Slope(c)
    else 1.0
  }

  /** Every mode maps raw counts affinely: a difference in counts becomes `Gain` times that difference in grams. */
  lemma ApplyIsAffine(c: Params, a: real, b: real)
    ensures Apply(c, a) - Apply(c, b) == Gain(c) * (a - b)
  {
    if c.mode == 1 {
      assert (a - c.rawZero) * c.scaleFactor - (b - c.rawZero) * c.scaleFactor == c.scaleFactor * (a - b);
    } else if c.mode == 2 && c.rawPoint2 != c.rawPoint1 {
      var m := Slope(c);
      assert m * (a - c.rawPoint1) - m * (b - c.rawPoint1) == m * (a - b);
    }
  }

  /** One-point mode reads the known weight at the point whose scale it stores. */
  lemma OnePointThroughPoints(c: Params)
    requires c.mode == 1
    requires c.rawPoint1 != c.rawZero
    requires c.scaleFactor == c.weight1 / (c.rawPoint1 - c.rawZero)
    ensures Apply(c, c.rawPoint1) == c.weight1
  {
    var d := c.rawPoint1 - c.rawZero;
    assert d * (c.weight1 / d) == c.weight1;
  }

  /** Two-point mode with distinct points is increasing when the heavier weight has the larger count. */
  lemma TwoPointMonotone(c: Params, a: real, b: real)
    requires c.mode == 2
    requires c.rawPoint1 < c.rawPoint2 && c.weight1 < c.weight2
    requires a <= b
    ensures Apply(c, a) <= Apply(c, b)
  {
    ApplyIsAffine(c, b, a);
    var m := Slope(c);
    assert m > 0.0;
    assert m * (b - a) >= 0.0;
  }

  /** What a calibration command reports to the operator. */
  datatype Notice =
    | NotEnoughData      // fewer than ten buffered samples
    | ZeroDone           // zero offset taken
    | OnePointDone       // scale factor computed
    | ZeroDifference     // one-point reading equals the zero reference
    | FirstPointDone     // first two-point reading taken
    | TwoPointDone       // second two-point reading taken
    | Declined           // the operator answered No
    | Silent             // a mode the dialog never offers: nothing is shown

  /** The calibration after a command, and its notice. */
  datatype Step = Step(cal: Params, notice: Notice)

  /** What the calibration dialog hands over: the chosen mode and the two known weights. */
  datatype Request = Request(mode: int, weight1: real, weight2: real)

  /**
   * `perform_zero_calibration`: with fewer than ten samples nothing changes;
   * otherwise the mean of the last ten raw samples, which lies within their
   * range, becomes the zero offset, the mode becomes zero-offset, the current
   * load then reads 0 g, and no other attribute changes.
   */
  function ZeroCalibration(c: Params, raws: seq<real>): (r: Step)
    ensures |raws| < RecentCount ==> r == Step(c, NotEnoughData)
    ensures |raws| >= RecentCount ==>
              && r.notice == ZeroDone
              && r.cal.mode == 0
              && Apply(r.cal, RecentMean(raws)) == 0.0
              && r.cal.(zeroOffset := c.zeroOffset, mode := c.mode) == c
              && Min(raws[|raws| - RecentCount..]) <= r.cal.zeroOffset <= Max(raws[|raws| - RecentCount..])
  {
    if |raws| < RecentCount then Step(c, NotEnoughData)
    else Step(c.(zeroOffset := RecentMean(raws), mode := 0), ZeroDone)
  }

  /**
   * `perform_calibration` with the operator's Yes/No answer as `confirmed`.
   * The mode is stored before the operator is asked and before the
   * zero-difference check; two-point calibration takes its first point while
   * `rawPoint1` is 0 and its second point otherwise.
   */
  function Calibrate(c: Params, raws: seq<real>, req: Request, confirmed: bool): (r: Step)
    ensures |raws| < RecentCount ==> r == Step(c, NotEnoughData)
    ensures |raws| >= RecentCount ==> r.cal.mode == req.mode
    ensures r.cal.zeroOffset != c.zeroOffset ==> |raws| >= RecentCount && req.mode == 0
    ensures r.notice == Declined ==> !confirmed && r.cal == c.(mode := req.mode)
  {
    if |raws| < RecentCount then Step(c, NotEnoughData)
    else if req.mode == 0 then ZeroCalibration(c.(mode := 0), raws)
    else
      var current := RecentMean(raws);
      var c1 := c.(mode := req.mode);
      if req.mode == 1 then
        if !confirmed then Step(c1, Declined)
        else
          var c2 := c1.(rawZero := c1.zeroOffset, rawPoint1 := current, weight1 := req.weight1);
          if current - c2.rawZero != 0.0 then
            Step(c2.(scaleFactor := c2.weight1 / (current - c2.rawZero)), OnePointDone)
          else
            Step(c2, ZeroDifference)
      else if req.mode == 2 then
        if !confirmed then Step(c1, Declined)
        else if c1.rawPoint1 == 0.0 then Step(c1.(rawPoint1 := current, weight1 := req.weight1), FirstPointDone)
        else Step(c1.(rawPoint2 := current, weight2 := req.weight2), TwoPointDone)
      else Step(c1, Silent)
  }

  /**
   * A confirmed one-point calibration whose reading differs from the zero
   * offset stores the zero offset as reference, the reading as first point
   * with the known weight, and their quotient as scale; the zero offset then
   * reads 0 g and the current reading the known weight.
   */
  lemma OnePointReadsKnownWeight(c: Params, raws: seq<real>, req: Request)
    requires |raws| >= RecentCount
    requires req.mode == 1
    requires RecentMean(raws) != c.zeroOffset
    ensures var s := Calibrate(c, raws, req, true);
            && s.notice == OnePointDone
            && s.cal.mode == 1
            && Apply(s.cal, c.zeroOffset) == 0.0
            && Apply(s.cal, RecentMean(raws)) == req.weight1
            && s.cal == c.(mode := 1, rawZero := c.zeroOffset, rawPoint1 := RecentMean(raws),
                           weight1 := req.weight1,
                           scaleFactor := req.weight1 / (RecentMean(raws) - c.zeroOffset))
  {
    var r := Calibrate(c, raws, req, true).cal;
    assert r.rawZero == c.zeroOffset && r.rawPoint1 == RecentMean(raws) && r.weight1 == req.weight1;
    OnePointThroughPoints(r);
  }

  /**
   * A confirmed one-point calibration whose reading equals the zero offset
   * is refused, yet it has already switched to mode 1 and stored the
   * reference, the reading and the weight; the scale factor is kept.
   */
  lemma OnePointZeroDifferenceKeepsScale(c: Params, raws: seq<real>, req: Request)
    requires |raws| >= RecentCount
    requires req.mode == 1
    requires RecentMean(raws) == c.zeroOffset
    ensures Calibrate(c, raws, req, true)
            == Step(c.(mode := 1, rawZero := c.zeroOffset, rawPoint1 := c.zeroOffset, weight1 := req.weight1),
                    ZeroDifference)
  {
  }

  /** Answering No to a one- or two-point prompt still switches the mode, and changes nothing else. */
  lemma DeclinedStillSetsMode(c: Params, raws: seq<real>, req: Request)
    requires |raws| >= RecentCount
    requires req.mode == 1 || req.mode == 2
    ensures Calibrate(c, raws, req, false) == Step(c.(mode := req.mode), Declined)
  {
  }

  /** A mode-0 request is exactly zero calibration. */
  lemma ZeroRequestIsZeroCalibration(c: Params, raws: seq<real>, req: Request, confirmed: bool)
    requires req.mode == 0
    ensures Calibrate(c, raws, req, confirmed) == ZeroCalibration(c, raws)
  {
  }

  /**
   * A confirmed two-point command while the first point is still 0 stores
   * the reading and the first weight, and changes nothing but the mode.
   */
  lemma TwoPointFirstReading(c: Params, raws: seq<real>, req: Request)
    requires |raws| >= RecentCount
    requires req.mode == 2 && c.rawPoint1 == 0.0
    ensures Calibrate(c, raws, req, true)
            == Step(c.(mode := 2, rawPoint1 := RecentMean(raws), weight1 := req.weight1), FirstPointDone)
  {
  }

  /**
   * A confirmed two-point command once the first point is set stores the
   * reading and the second weight, and changes nothing but the mode.
   */
  lemma TwoPointSecondReading(c: Params, raws: seq<real>, req: Request)
    requires |raws| >= RecentCount
    requires req.mode == 2 && c.rawPoint1 != 0.0
    ensures Calibrate(c, raws, req, true)
            == Step(c.(mode := 2, rawPoint2 := RecentMean(raws), weight2 := req.weight2), TwoPointDone)
  {
  }

  /** Once the first two-point reading is non-zero, two-point calibration never replaces it. */
  lemma TwoPointKeepsFirstPoint(c: Params, raws: seq<real>, req: Request, confirmed: bool)
    requires req.mode == 2
    requires c.rawPoint1 != 0.0
    ensures Calibrate(c, raws, req, confirmed).cal.rawPoint1 == c.rawPoint1
    ensures Calibrate(c, raws, req, confirmed).cal.weight1 == c.weight1
  {
  }

  /**
   * Two confirmed two-point commands, the first with a non-zero reading m1
   * under weight1, the second with a different reading m2 under weight2,
   * leave a calibration that reads weight1 at m1 and weight2 at m2.
   */
  lemma TwoPointSession(c: Params, raws1: seq<real>, raws2: seq<real>, req1: Request, req2: Request)
    requires c.rawPoint1 == 0.0
    requires req1.mode == 2 && req2.mode == 2
    requires |raws1| >= RecentCount && |raws2| >= RecentCount
    requires RecentMean(raws1) != 0.0
    requires RecentMean(raws2) != RecentMean(raws1)
    ensures var first := Calibrate(c, raws1, req1, true);
            var second := Calibrate(first.cal, raws2, req2, true);
            && first.notice == FirstPointDone
            && second.notice == TwoPointDone
            && Apply(second.cal, RecentMean(raws1)) == req1.weight1
            && Apply(second.cal, RecentMean(raws2)) == req2.weight2
  {
    var first := Calibrate(c, raws1, req1, true);
    assert first.cal.rawPoint1 == RecentMean(raws1);
    var second := Calibrate(first.cal, raws2, req2, true);
    assert second.cal.rawPoint1 == RecentMean(raws1) && second.cal.weight1 == req1.weight1;
    assert second.cal.rawPoint2 == RecentMean(raws2) && second.cal.weight2 == req2.weight2;
  }

  /**
   * A one-point calibration also stores the first point, so a two-point
   * command right after it (with a non-zero one-point reading) takes only
   * the second point: the one-point reading and weight become point 1.
   */
  lemma OnePointThenTwoPointSkipsFirst(c: Params, raws1: seq<real>, raws2: seq<real>, r1: Request, r2: Request)
    requires r1.mode == 1 && r2.mode == 2
    requires |raws1| >= RecentCount && |raws2| >= RecentCount
    requires RecentMean(raws1) != c.zeroOffset
    requires RecentMean(raws1) != 0.0
    ensures var first := Calibrate(c, raws1, r1, true);
            var second := Calibrate(first.cal, raws2, r2, true);
            && first.notice == OnePointDone
            && second.notice == TwoPointDone
            && second.cal.rawPoint1 == RecentMean(raws1)
            && second.cal.weight1 == r1.weight1
            && second.cal.rawPoint2 == RecentMean(raws2)
            && second.cal.weight2 == r2.weight2
  {
  }

  /** A first two-point reading of exactly 0 is stored as 0, so the next command asks for the first point again. */
  lemma TwoPointZeroFirstReadingRepeats(c: Params, raws: seq<real>, req: Request)
    requires c.rawPoint1 == 0.0
    requires req.mode == 2
    requires |raws| >= RecentCount
    requires RecentMean(raws) == 0.0
    ensures var s := Calibrate(c, raws, req, true);
            s.notice == FirstPointDone && s.cal.rawPoint1 == 0.0
  {
  }

  // ---------------------------------------------------------------------
  // The settings record (`save_calibration_settings`, `load_calibration_from_file`)
  // ---------------------------------------------------------------------

  /** A JSON value as it appears in the settings file. */
  datatype Value = Int(i: int) | Real(r: real) | Text(s: string)

  /** The keys of the eight calibration attributes. */
  const CalibrationKeys: set<string> := {
    "calibration_mode", "zero_offset", "scale_factor", "cal_raw_zero",
    "cal_raw_point1", "cal_raw_point2", "cal_weight1", "cal_weight2" }

  /** Saving is refused while the calibration is the untouched zero-offset one. */
  predicate NothingToSave(c: Params)
  {
    c.mode == 0 && c.zeroOffset == 0.0
  }

  /** The record `save_calibration_settings` writes, with `timestamp` the save time in ISO format; None when refused. */
  function SettingsRecord(c: Params, timestamp: string): (r: Option<map<string, Value>>)
    ensures r.None? <==> NothingToSave(c)
    ensures r.Some? ==> r.value.Keys == CalibrationKeys + {"timestamp"}
    ensures r.Some? ==> r.value["timestamp"] == Text(timestamp)
  {
    if NothingToSave(c) then None
    else Some(map[
      "calibration_mode" := Int(c.mode),
      "zero_offset" := Real(c.zeroOffset),
      "scale_factor" := Real(c.scaleFactor),
      "cal_raw_zero" := Real(c.rawZero),
      "cal_raw_point1" := Real(c.rawPoint1),
      "cal_raw_point2" := Real(c.rawPoint2),
      "cal_weight1" := Real(c.weight1),
      "cal_weight2" := Real(c.weight2),
      "timestamp" := Text(timestamp)])
  }

  /** The number a JSON value denotes, if it is a number. */
  function AsNumber(v: Value): (r: Option<real>)
  {
    match v
    case Real(x) => Some(x)
    case Int(i) => Some(i as real)
    case Text(_) => None
  }

  /** `settings.get(key, default)` for a numeric attribute; a JSON integer reads as that number. */
  function NumberOr(m: map<string, Value>, key: string, default: real): (r: real)
  {
    if key in m && AsNumber(m[key]).Some? then AsNumber(m[key]).value else default
  }

  /** `settings.get('calibration_mode', 0)`. */
  function ModeOr(m: map<string, Value>, key: string, default: int): (r: int)
  {
    if key in m && m[key].Int? then m[key].i else default
  }

  /** The calibration `load_calibration_from_file` assigns from a settings record. */
  function FromSettings(m: map<string, Value>): (r: Params)
    ensures "calibration_mode" !in m ==> r.mode == Initial.mode
    ensures "zero_offset" !in m ==> r.zeroOffset == Initial.zeroOffset
    ensures "scale_factor" !in m ==> r.scaleFactor == Initial.scaleFactor
    ensures "cal_raw_zero" !in m ==> r.rawZero == Initial.rawZero
    ensures "cal_raw_point1" !in m ==> r.rawPoint1 == Initial.rawPoint1
    ensures "cal_raw_point2" !in m ==> r.rawPoint2 == Initial.rawPoint2
    ensures "cal_weight1" !in m ==> r.weight1 == Initial.weight1
    ensures "cal_weight2" !in m ==> r.weight2 == Initial.weight2
    ensures "calibration_mode" in m && m["calibration_mode"].Int? ==> r.mode == m["calibration_mode"].i
    ensures "zero_offset" in m && AsNumber(m["zero_offset"]).Some? ==> r.zeroOffset == AsNumber(m["zero_offset"]).value
    ensures "scale_factor" in m && AsNumber(m["scale_factor"]).Some? ==> r.scaleFactor == AsNumber(m["scale_factor"]).value
    ensures "cal_raw_zero" in m && AsNumber(m["cal_raw_zero"]).Some? ==> r.rawZero == AsNumber(m["cal_raw_zero"]).value
    ensures "cal_raw_point1" in m && AsNumber(m["cal_raw_point1"]).Some? ==> r.rawPoint1 == AsNumber(m["cal_raw_point1"]).value
    ensures "cal_raw_point2" in m && AsNumber(m["cal_raw_point2"]).Some? ==> r.rawPoint2 == AsNumber(m["cal_raw_point2"]).value
    ensures "cal_weight1" in m && AsNumber(m["cal_weight1"]).Some? ==> r.weight1 == AsNumber(m["cal_weight1"]).value
    ensures "cal_weight2" in m && AsNumber(m["cal_weight2"]).Some? ==> r.weight2 == AsNumber(m["cal_weight2"]).value
  {
    Params(
      ModeOr(m, "calibration_mode", 0),
      NumberOr(m, "zero_offset", 0.0),
      NumberOr(m, "scale_factor", 1.0),
      NumberOr(m, "cal_raw_zero", 0.0),
      NumberOr(m, "cal_raw_point1", 0.0),
      NumberOr(m, "cal_raw_point2", 0.0),
      NumberOr(m, "cal_weight1", 100.0),
      NumberOr(m, "cal_weight2", 500.0))
  }

  /** Loading a record without calibration keys (an empty file object, say) restores the start-up values. */
  lemma EmptyRecordGivesInitial(m: map<string, Value>)
    requires m.Keys !! CalibrationKeys
    ensures FromSettings(m) == Initial
  {
    assert "calibration_mode" !in m && "zero_offset" !in m && "scale_factor" !in m;
    assert "cal_raw_zero" !in m && "cal_raw_point1" !in m && "cal_raw_point2" !in m;
    assert "cal_weight1" !in m && "cal_weight2" !in m;
  }

  /** Saving and loading back reproduces all eight calibration attributes. */
  lemma SettingsRoundTrip(c: Params, timestamp: string)
    requires !NothingToSave(c)
    ensures SettingsRecord(c, timestamp).Some?
    ensures FromSettings(SettingsRecord(c, timestamp).value) == c
  {
  }
}
