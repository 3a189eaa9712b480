/**
 * Time series sampled at a fixed step, and the conversion of cut points
 * given as times into sample indices.
 */
module Time {
  import opened Exceptions
  import opened Builtins

  /** A Python number: an `int` or a `float`. */
  datatype Num = Int(i: int) | Float(f: real)

  function Val(n: Num): real {
    match n
    case Int(i) => i as real
    case Float(f) => f
  }

  const CutMessage: string := "Cut point is greater than time series length"

  /**
   * `time_indices(npts, dt, start, end, index)`: with `index`, the cut points
   * are already sample indices; otherwise they are times, and `end == -1`
   * stands for "up to the last sample, exclusive".
   */
  function TimeIndices(npts: int, dt: Num, start: Num, end: Num, index: bool): (r: Result<(Num, Num)>)
    ensures index ==> (r.Ok? <==> Val(end) <= npts as real)
    ensures index && r.Ok? ==> r.value == (start, end)
    ensures !index ==> (Val(dt) == 0.0 <==> r == Err(ZeroDivisionError))
    ensures !index && r.Ok? ==>
      r.value.0 == Int(Trunc(Val(start) / Val(dt))) &&
      r.value.1 == (if Val(end) == -1.0 then end else Int(Trunc(Val(end) / Val(dt)) + 1))
    ensures !index && Val(dt) != 0.0 ==>
      (r.Ok? <==> if Val(end) == -1.0 then -1 <= npts else Trunc(Val(end) / Val(dt)) + 1 <= npts)
    ensures index && r.Err? ==> r.error == ModelError(CutMessage)
    ensures r.Err? && r.error != ZeroDivisionError ==> r.error == ModelError(CutMessage)
  {
    var indices: Result<(Num, Num)> :=
      if index then Ok((start, end))
      else if Val(dt) == 0.0 then Err(ZeroDivisionError)
      else
        var eIndex := if Val(end) != -1.0 then Int(Trunc(Val(end) / Val(dt)) + 1) else end;
        var sIndex := Int(Trunc(Val(start) / Val(dt)));
        Ok((sIndex, eIndex));
    match indices
    case Err(e) => Err(e)
    case Ok(pair) =>
      if Val(pair.1) > npts as real then Err(ModelError(CutMessage)) else Ok(pair)
  }

  /**
   * A time that is a whole number of steps from zero becomes that sample's
   * index; an end time becomes the index one past the sample at it.
   */
  lemma WholeStepsAreIndices(npts: int, dt: real, k: nat, m: nat)
    requires dt > 0.0
    requires m as real * dt != -1.0
    requires m + 1 <= npts
    ensures TimeIndices(npts, Float(dt), Float(k as real * dt), Float(m as real * dt), false) ==
            Ok((Int(k), Int(m + 1)))
  {
    assert (k as real * dt) / dt == k as real;
    assert (m as real * dt) / dt == m as real;
  }

  /**
   * An index converted from a non-negative time `t` names the last sample at
   * or before `t`: `s * dt <= t < (s + 1) * dt`.
   */
  lemma StartIndexBrackets(npts: int, dt: real, start: real, end: Num)
    requires dt > 0.0 && start >= 0.0
    requires TimeIndices(npts, Float(dt), Float(start), end, false).Ok?
    ensures var s := TimeIndices(npts, Float(dt), Float(start), end, false).value.0.i;
      s >= 0 && s as real * dt <= start < (s + 1) as real * dt
  {
    StepsBefore(start, dt);
  }

  /** The whole number of steps `dt` that fit in a non-negative time `t`. */
  lemma StepsBefore(t: real, dt: real)
    requires dt > 0.0 && t >= 0.0
    ensures var s := Trunc(t / dt); s >= 0 && s as real * dt <= t < (s + 1) as real * dt
  {
    assert t / dt >= 0.0;
    var s := Trunc(t / dt);
    ScaleBracket(s as real, t, (s + 1) as real, dt);
  }

  lemma ScaleBracket(lo: real, t: real, hi: real, dt: real)
    requires dt > 0.0 && lo <= t / dt < hi
    ensures lo * dt <= t < hi * dt
  {
    var q := t / dt;
    assert q * dt == t;
    assert (q - lo) * dt >= 0.0;
    assert (hi - q) * dt > 0.0;
  }

  class TimeSeries {
    var values: seq<real>
    var dt: Num
    var npts: int
    var name: string
    var mtype: string

    /** `TimeSeries(values, dt, name)`. */
    constructor (values: seq<real>, dt: Num, name: string := "unnamed")
      ensures this.values == values && this.dt == dt && this.name == name
      ensures npts == |values| && mtype == "time_series"
    {
      this.mtype := "time_series";
      this.dt := dt;
      this.values := values;
      this.name := name;
      this.npts := |values|;
    }

    /** `time`: the time of each of the `npts` samples, step `dt` apart from zero. */
    function Times(): (ts: seq<real>)
      reads this
      ensures |ts| == if npts < 0 then 0 else npts
      ensures forall i :: 0 <= i < |ts| ==> ts[i] == i as real * Val(dt)
    {
      var step := Val(dt);
      seq(if npts < 0 then 0 else npts, i => i as real * step)
    }

    /**
     * `cut(start, end, index)`: keeps the slice of the values between the
     * converted cut points; a cut point left a `float` is not a slice index.
     * `npts` and `dt` are not updated.
     */
    method Cut(start: Num := Int(0), end: Num := Int(-1), index: bool := false) returns (r: Outcome)
      modifies this
      ensures var ix := TimeIndices(old(npts), old(dt), start, end, index);
        if ix.Err? then r == Fail(ix.error) && values == old(values)
        else if ix.value.0.Float? || ix.value.1.Float? then r == Fail(TypeError) && values == old(values)
        else r == Pass && values == Slice(old(values), ix.value.0.i, ix.value.1.i)
      ensures npts == old(npts) && dt == old(dt) && name == old(name) && mtype == old(mtype)
    {
      var ix := TimeIndices(npts, dt, start, end, index);
      if ix.Err? {
        return Fail(ix.error);
      }
      var (sIndex, eIndex) := ix.value;
      if sIndex.Float? || eIndex.Float? {
        return Fail(TypeError);
      }
      values := Slice(values, sIndex.i, eIndex.i);
      return Pass;
    }
  }

  /** Successive sample times are one step apart. */
  lemma TimesStep(ts: TimeSeries, i: nat)
    requires i + 1 < |ts.Times()|
    ensures ts.Times()[i + 1] - ts.Times()[i] == Val(ts.dt)
  {
    var d := Val(ts.dt);
    assert (i + 1) as real * d == i as real * d + d;
  }

  /** Cutting with the defaults keeps every value but the last. */
  lemma DefaultCutDropsLast(npts: int, dt: Num, values: seq<real>)
    requires Val(dt) != 0.0 && npts >= -1 && values != []
    ensures TimeIndices(npts, dt, Int(0), Int(-1), false) == Ok((Int(0), Int(-1)))
    ensures Slice(values, 0, -1) == values[..|values| - 1]
  {
    assert Val(Int(0)) / Val(dt) == 0.0;
  }
}
