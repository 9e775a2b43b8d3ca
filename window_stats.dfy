/**
 * The statistics part of `update_display`: select the samples of the
 * trailing time window and compute the current, largest, smallest and mean
 * calibrated value over them.
 */
module WindowStats {
  import opened Wrappers
  import opened Series

  /** `max(0, tmax - window_sec)`: the start of the displayed window. */
  function WindowStart(tmax: real, windowSec: real): (r: real)
    ensures r >= 0.0 && r >= tmax - windowSec
    ensures r == 0.0 || r == tmax - windowSec
  {
    if tmax - windowSec > 0.0 then tmax - windowSec else 0.0
  }

  /** `a` is `b` with some elements left out, in `b`'s order. */
  predicate Subsequence(a: seq<real>, b: seq<real>)
  {
    a == [] || (b != [] && ((a[0] == b[0] && Subsequence(a[1..], b[1..])) || Subsequence(a, b[1..])))
  }

  /**
   * `[t for t in buf_t if t >= tmin]`: only times of the buffer not before
   * `tmin`, and each such time (`InWindowIsFilter` adds order and multiplicity).
   */
  function InWindow(ts: seq<real>, tmin: real): (r: seq<real>)
    ensures |r| <= |ts|
    ensures forall i :: 0 <= i < |r| ==> tmin <= r[i] && r[i] in ts
    ensures forall i :: 0 <= i < |ts| && tmin <= ts[i] ==> ts[i] in r
  {
    if ts == [] then []
    else
      var rest := InWindow(ts[1..], tmin);
      assert forall i :: 1 <= i < |ts| ==> ts[i] == ts[1..][i - 1];
      if tmin <= ts[0] then [ts[0]] + rest else rest
  }

  /**
   * The selection keeps the buffer's order, holds every time not before
   * `tmin` as often as the buffer does, and no other time; so its length is
   * the number of buffer entries not before `tmin`.
   */
  lemma {:induction false} InWindowIsFilter(ts: seq<real>, tmin: real)
    ensures Subsequence(InWindow(ts, tmin), ts)
    ensures forall x :: multiset(InWindow(ts, tmin))[x] == if tmin <= x then multiset(ts)[x] else 0
  {
    if ts != [] {
      var rest := InWindow(ts[1..], tmin);
      InWindowIsFilter(ts[1..], tmin);
      assert ts == [ts[0]] + ts[1..];
      if tmin <= ts[0] {
        assert ([ts[0]] + rest)[1..] == rest;
      }
    }
  }

  /** The selected times and the calibrated values shown with them. */
  datatype Selection = Selection(times: seq<real>, values: seq<real>)

  /**
   * The window of `update_display`: the times not before the window start,
   * and as many of the newest calibrated values
   * (`list(buf_g_calibrated)[len(buf_t) - len(x_data):]`).
   */
  function SelectWindow(ts: seq<real>, cals: seq<real>, windowSec: real): (r: Selection)
    requires |ts| == |cals| && |ts| > 0
    ensures r.times == InWindow(ts, WindowStart(Last(ts), windowSec))
    ensures |r.values| == |r.times| <= |ts|
    ensures r.values == cals[|ts| - |r.times|..]
  {
    var xs := InWindow(ts, WindowStart(Last(ts), windowSec));
    Selection(xs, cals[|ts| - |xs|..])
  }

  /** The figures shown next to the graph. */
  datatype Stats = Stats(current: real, maximum: real, minimum: real, average: real, sampleCount: nat)

  /**
   * `update_display` on buffers `ts` (times), `raws` and `cals` (calibrated):
   * None when nothing is shown. The sample count is the length of the whole
   * raw buffer, not of the window.
   */
  function UpdateDisplay(ts: seq<real>, raws: seq<real>, cals: seq<real>, windowSec: real): (r: Option<Stats>)
    requires |ts| == |cals|
    ensures ts == [] ==> r == None
    ensures ts != [] && Last(ts) >= 0.0 && windowSec >= 0.0 ==> r.Some?
    ensures r.Some? ==> r.value.current == Last(cals)
    ensures r.Some? ==> r.value.minimum <= r.value.current <= r.value.maximum
    ensures r.Some? ==> r.value.minimum <= r.value.average <= r.value.maximum
    ensures r.Some? ==> r.value.sampleCount == |raws|
    ensures ts != [] ==>
              (r.Some? <==> exists i :: 0 <= i < |ts| && WindowStart(Last(ts), windowSec) <= ts[i])
  {
    if ts == [] then None
    else
      var tmin := WindowStart(Last(ts), windowSec);
      var sel := SelectWindow(ts, cals, windowSec);
      var ys := sel.values;
      if ys == [] then
        assert forall i :: 0 <= i < |ts| ==> ts[i] < tmin;
        None
      else
        assert sel.times[0] in ts && tmin <= sel.times[0];
        Some(Stats(Last(ys), Max(ys), Min(ys), Mean(ys), |raws|))
  }

  /** In a time column that never decreases, the samples inside the window form a suffix, and only they are in it. */
  lemma {:induction false} WindowIsSuffix(ts: seq<real>, tmin: real)
    requires NonDecreasing(ts)
    ensures var xs := InWindow(ts, tmin);
            && xs == ts[|ts| - |xs|..]
            && forall i :: 0 <= i < |ts| ==> (tmin <= ts[i] <==> |ts| - |xs| <= i)
  {
    if ts != [] {
      var tail := ts[1..];
      assert forall i :: 1 <= i < |ts| ==> ts[i] == tail[i - 1];
      if tmin <= ts[0] {
        AllInWindow(ts, tmin);
      } else {
        WindowIsSuffix(tail, tmin);
      }
    }
  }

  /** When the oldest time is already inside a non-decreasing column, every time is. */
  lemma {:induction false} AllInWindow(ts: seq<real>, tmin: real)
    requires NonDecreasing(ts)
    requires ts != [] && tmin <= ts[0]
    ensures InWindow(ts, tmin) == ts
  {
    if |ts| > 1 {
      AllInWindow(ts[1..], tmin);
    }
  }

  /**
   * With a non-decreasing time column the shown values line up with the
   * shown times: both are the suffix from the same index k, and a sample is
   * shown exactly when its time is not before the window start.
   */
  lemma WindowAligned(ts: seq<real>, cals: seq<real>, windowSec: real)
    requires |ts| == |cals| && |ts| > 0
    requires NonDecreasing(ts)
    ensures var sel := SelectWindow(ts, cals, windowSec);
            var k := |ts| - |sel.times|;
            var tmin := WindowStart(Last(ts), windowSec);
            && sel.times == ts[k..]
            && sel.values == cals[k..]
            && forall i :: 0 <= i < |ts| ==> (tmin <= ts[i] <==> k <= i)
  {
    WindowIsSuffix(ts, WindowStart(Last(ts), windowSec));
  }

  /**
   * With a non-decreasing time column, as soon as one sample lies inside the
   * window the figures are shown, and every calibrated value recorded at a
   * time inside the window lies between the shown minimum and maximum.
   */
  lemma StatsCoverWindow(ts: seq<real>, raws: seq<real>, cals: seq<real>, windowSec: real, i: int)
    requires |ts| == |cals|
    requires NonDecreasing(ts)
    requires 0 <= i < |ts| && WindowStart(Last(ts), windowSec) <= ts[i]
    ensures UpdateDisplay(ts, raws, cals, windowSec).Some?
    ensures var s := UpdateDisplay(ts, raws, cals, windowSec);
            s.Some? ==> s.value.minimum <= cals[i] <= s.value.maximum
  {
    WindowAligned(ts, cals, windowSec);
    var ys := SelectWindow(ts, cals, windowSec).values;
    var k := |ts| - |ys|;
    assert cals[i] == ys[i - k];
  }

  /**
   * With a non-decreasing time column whose samples from index k on are
   * exactly those inside the window, the figures are shown, and the maximum,
   * minimum and average are those of the calibrated values from k on; the
   * maximum and the minimum are each the value of some sample inside the
   * window.
   */
  lemma StatsOverWindow(ts: seq<real>, raws: seq<real>, cals: seq<real>, windowSec: real, k: int)
    requires |ts| == |cals|
    requires NonDecreasing(ts)
    requires 0 <= k < |ts|
    requires forall i :: 0 <= i < |ts| ==> (WindowStart(Last(ts), windowSec) <= ts[i] <==> k <= i)
    ensures UpdateDisplay(ts, raws, cals, windowSec).Some?
    ensures var s := UpdateDisplay(ts, raws, cals, windowSec).value;
            && s.maximum == Max(cals[k..])
            && s.minimum == Min(cals[k..])
            && s.average == Mean(cals[k..])
    ensures var s := UpdateDisplay(ts, raws, cals, windowSec).value;
            var tmin := WindowStart(Last(ts), windowSec);
            && (exists i :: 0 <= i < |ts| && tmin <= ts[i] && cals[i] == s.maximum)
            && (exists i :: 0 <= i < |ts| && tmin <= ts[i] && cals[i] == s.minimum)
  {
    ShownFromIndex(ts, cals, windowSec, k);
    var ys := cals[k..];
    var a :| 0 <= a < |ys| && ys[a] == Max(ys);
    assert cals[k + a] == Max(ys);
    var b :| 0 <= b < |ys| && ys[b] == Min(ys);
    assert cals[k + b] == Min(ys);
  }

  /**
   * With a non-decreasing time column whose samples from index k on are
   * exactly those inside the window, the shown values are the calibrated
   * values from k on.
   */
  lemma ShownFromIndex(ts: seq<real>, cals: seq<real>, windowSec: real, k: int)
    requires |ts| == |cals|
    requires NonDecreasing(ts)
    requires 0 <= k < |ts|
    requires forall i :: 0 <= i < |ts| ==> (WindowStart(Last(ts), windowSec) <= ts[i] <==> k <= i)
    ensures SelectWindow(ts, cals, windowSec).values == cals[k..]
  {
    WindowAligned(ts, cals, windowSec);
    var j := |ts| - |SelectWindow(ts, cals, windowSec).times|;
    assert j <= k by {
      assert WindowStart(Last(ts), windowSec) <= ts[k];
    }
    assert k <= j by {
      if j < |ts| {
        assert WindowStart(Last(ts), windowSec) <= ts[j];
      }
    }
  }

  /**
   * When the clock steps back, the values are still taken as a suffix by
   * count: with times 5, 0, 6 and a 3 s window the times 5 and 6 are shown
   * with the values recorded at times 0 and 6.
   */
  lemma ClockStepBackShiftsValues()
    ensures SelectWindow([5.0, 0.0, 6.0], [1.0, 2.0, 3.0], 3.0)
            == Selection([5.0, 6.0], [2.0, 3.0])
  {
    var ts := [5.0, 0.0, 6.0];
    assert WindowStart(Last(ts), 3.0) == 3.0;
    assert InWindow(ts[2..], 3.0) == [6.0];
    assert InWindow(ts[1..], 3.0) == [6.0];
    assert InWindow(ts, 3.0) == [5.0, 6.0];
  }

  /** Calibrated values 1, 2, 3 inside a 30 s window show 3 now, 3 at most, 1 at least, 2 on average. */
  lemma ThreeSampleExample()
    ensures UpdateDisplay([0.0, 0.5, 1.0], [10.0, 20.0, 30.0], [1.0, 2.0, 3.0], 30.0)
            == Some(Stats(3.0, 3.0, 1.0, 2.0, 3))
  {
    var ts, ys := [0.0, 0.5, 1.0], [1.0, 2.0, 3.0];
    assert WindowStart(Last(ts), 30.0) == 0.0;
    AllInWindow(ts, 0.0);
    assert SelectWindow(ts, ys, 30.0).values == ys;
    ThreeSampleFigures();
  }

  /** The figures of the series 1, 2, 3. */
  lemma ThreeSampleFigures()
    ensures Max([1.0, 2.0, 3.0]) == 3.0
    ensures Min([1.0, 2.0, 3.0]) == 1.0
    ensures Mean([1.0, 2.0, 3.0]) == 2.0
  {
    var ys := [1.0, 2.0, 3.0];
    assert ys[2] == 3.0 && forall i :: 0 <= i < 3 ==> ys[i] <= 3.0;
    assert ys[0] == 1.0 && forall i :: 0 <= i < 3 ==> 1.0 <= ys[i];
    assert Sum(ys) == 6.0 by {
      assert ys[..2] == [1.0, 2.0] && ys[..2][..1] == [1.0] && [1.0][..0] == [];
    }
  }
}
