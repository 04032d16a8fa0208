/** The transit model the second-generation simulator receives from batman and
    the rules `run_simulation` applies to it: the time-unit conversion of its
    time axis, the reset of the time of inferior conjunction, and the decision
    whether limb-darkening coefficients are taken, regenerated or kept. */
module Transit {
  import opened Wrappers
  import opened Numpy
  import opened Tensors

  /** The attributes of a transit model that the simulator reads. `t0` and
      `limbDark` are batman parameters, `None` when set to `None`; `teff`,
      `logg` and `feh` are set by the caller, `None` when the caller did not
      set them. */
  class TransitParams {
    var t: array<real>
    var t0: Option<real>
    var limbDark: Option<string>
    var teff: Option<real>
    var logg: Option<real>
    var feh: Option<real>

    constructor(t: seq<real>, t0: Option<real>, limbDark: Option<string>,
                teff: Option<real>, logg: Option<real>, feh: Option<real>)
      ensures fresh(this.t) && this.t[..] == t
      ensures this.t0 == t0 && this.limbDark == limbDark
      ensures this.teff == teff && this.logg == logg && this.feh == feh
    {
      this.t := new real[|t|](i requires 0 <= i < |t| => t[i]);
      this.t0, this.limbDark := t0, limbDark;
      this.teff, this.logg, this.feh := teff, logg, feh;
    }

    /** What the light-curve generator sees of the model. */
    function State(): TransitState
      reads this, t
    {
      TransitState(t[..], t0, limbDark, teff, logg, feh)
    }

    /** `tmodel.t /= divisor`, in place. */
    method DivideTime(divisor: real)
      requires divisor != 0.0
      modifies t
      ensures t[..] == DividedBy(old(t[..]), divisor)
    {
      forall i | 0 <= i < t.Length {
        t[i] := t[i] / divisor;
      }
    }

    /** The preparation `run_simulation` applies to a stored model: the
        default limb-darkening law, the reset of `t0` against the exposure's
        time axis, and the conversion of `t` to days. */
    method Prepare(ldProfile: string, time: seq<real>, unit: string)
      requires ValidTimeUnit(unit) && |time| > 0
      modifies this, t
      ensures t == old(t)
      ensures State() == Prepared(old(State()), ldProfile, time, unit)
    {
      if limbDark.None? {
        limbDark := Some(ldProfile);
      }
      t0 := ResetT0(t0, time).value;
      if unit != "days" {
        DivideTime(DaysIn(unit));
      }
    }
  }

  datatype TransitState = TransitState(t: seq<real>, t0: Option<real>, limbDark: Option<string>,
                                       teff: Option<real>, logg: Option<real>, feh: Option<real>)

  function DividedBy(s: seq<real>, d: real): (r: seq<real>)
    requires d != 0.0
    ensures |r| == |s| && forall i :: 0 <= i < |s| ==> r[i] * d == s[i]
  {
    seq(|s|, i requires 0 <= i < |s| => s[i] / d)
  }

  predicate ValidTimeUnit(unit: string) {
    unit == "seconds" || unit == "minutes" || unit == "hours" || unit == "days"
  }

  const DAYS_TO_SECONDS: real := 86400.0

  /** The length of a day in `unit`: the divisor that brings the axis to days. */
  function DaysIn(unit: string): (d: real)
    requires ValidTimeUnit(unit)
    ensures d > 0.0
    ensures unit == "seconds" ==> d == 86400.0
    ensures unit == "minutes" ==> d == 1440.0
    ensures unit == "hours" ==> d == 24.0
    ensures unit == "days" ==> d == 1.0
  {
    if unit == "seconds" then DAYS_TO_SECONDS
    else if unit == "minutes" then DAYS_TO_SECONDS / 60.0
    else if unit == "hours" then DAYS_TO_SECONDS / 3600.0
    else 1.0
  }

  /** The time axis after the conversion to days; a `days` axis is not touched. */
  function ToDays(t: seq<real>, unit: string): (r: seq<real>)
    requires ValidTimeUnit(unit)
    ensures |r| == |t|
    ensures forall i :: 0 <= i < |t| ==> r[i] * DaysIn(unit) == t[i]
  {
    if unit == "days" then t else DividedBy(t, DaysIn(unit))
  }

  /** The conversion is not idempotent: a model passed to a second run in
      seconds is divided by 86400 once more. */
  lemma ToDaysCompounds(t: seq<real>, unit: string, n: nat)
    requires ValidTimeUnit(unit) && n < |t|
    ensures ToDays(ToDays(t, unit), unit)[n] * (DaysIn(unit) * DaysIn(unit)) == t[n]
    ensures unit != "days" && t[n] != 0.0 ==> ToDays(ToDays(t, unit), unit)[n] != ToDays(t, unit)[n]
  {
    var once := ToDays(t, unit);
    var twice := ToDays(once, unit);
    var d := DaysIn(unit);
    assert twice[n] * d == once[n];
    assert once[n] * d == t[n];
  }

  /** The time of inferior conjunction after the reset: a `None` value moves to
      the middle sample of the exposure, as does a value with
      `time[0] > t0 > time[-1]`; otherwise it stays. Both tests index the time
      axis, which raises `IndexError` when it is empty. */
  function ResetT0(t0: Option<real>, time: seq<real>): (r: Result<Option<real>>)
    ensures r.Err? <==> |time| == 0
    ensures r.Err? ==> r.error == IndexError
    ensures r.Ok? ==> r.value.Some?
    ensures r.Ok? && t0.None? ==> r.value == Some(time[|time| / 2])
    ensures r.Ok? && r.value != t0 ==> r.value == Some(time[|time| / 2])
  {
    if |time| == 0 then Err(IndexError)
    else if t0.None? || time[0] > t0.value > time[|time| - 1] then Ok(Some(time[|time| / 2]))
    else Ok(t0)
  }

  /** On a time axis that does not decrease the second test never holds, so a
      given `t0` is always kept, wherever it lies. */
  lemma ResetKeepsGivenT0(t0: real, time: seq<real>)
    requires |time| > 0 && NonDecreasing(time)
    ensures ResetT0(Some(t0), time) == Ok(Some(t0))
  {
    assert time[0] <= time[|time| - 1];
  }

  /** A model after `Prepare`. */
  function Prepared(s: TransitState, ldProfile: string, time: seq<real>, unit: string): (p: TransitState)
    requires ValidTimeUnit(unit) && |time| > 0
    ensures p.limbDark == if s.limbDark.None? then Some(ldProfile) else s.limbDark
    ensures p.t0 == ResetT0(s.t0, time).value
    ensures p.t == ToDays(s.t, unit)
    ensures p.teff == s.teff && p.logg == s.logg && p.feh == s.feh
  {
    TransitState(ToDays(s.t, unit), ResetT0(s.t0, time).value,
                 if s.limbDark.None? then Some(ldProfile) else s.limbDark, s.teff, s.logg, s.feh)
  }

  /** The four stellar parameters compared between runs, in the order teff,
      logg, feh, limb_dark. */
  datatype Stellar = Stellar(teff: Option<real>, logg: Option<real>, feh: Option<real>, limbDark: Option<string>)

  /** `[getattr(tmodel, p, None) for p in plist]` for the previously stored
      model (no model at all gives four `None`s). */
  function PreviousStellar(s: Option<TransitState>): (p: Stellar)
    ensures s.None? ==> p == Stellar(None, None, None, None)
  {
    match s
    case None => Stellar(None, None, None, None)
    case Some(m) => Stellar(m.teff, m.logg, m.feh, m.limbDark)
  }

  /** `[getattr(tmodel, p) for p in plist]` for the new model: a parameter the
      caller never set raises `AttributeError`. */
  function CurrentStellar(s: TransitState): (r: Result<Stellar>)
    ensures r.Err? <==> s.teff.None? || s.logg.None? || s.feh.None?
    ensures r.Err? ==> r.error == AttributeError
    ensures r.Ok? ==> r.value == Stellar(s.teff, s.logg, s.feh, s.limbDark)
  {
    if s.teff.None? || s.logg.None? || s.feh.None? then Err(AttributeError)
    else Ok(Stellar(s.teff, s.logg, s.feh, s.limbDark))
  }

  /** The `ld_coeffs` argument: a 3-D numpy array, or anything else. */
  datatype LdArg = LdArray(coeffs: Tensor) | LdOther

  /** The coefficient update: the coefficients stored afterwards, whether the
      model grid was stored, and how it ended. A supplied 3-D array is stored;
      any other supplied value, and every regeneration, reaches the setter's
      undefined name and raises `NameError`; otherwise nothing changes. */
  datatype LdStep = LdStep(coeffs: Tensor, gridStored: bool, outcome: Outcome)

  function LdUpdate(current: Tensor, ld: Option<LdArg>, isModelGrid: bool, changed: bool): (s: LdStep)
    ensures s.coeffs != current ==> ld == Some(LdArray(s.coeffs)) && s.outcome.Pass?
    ensures s.gridStored <==> ld.None? && isModelGrid && changed
    ensures s.outcome.Fail? <==> ld == Some(LdOther) || s.gridStored
    ensures s.outcome.Fail? ==> s.outcome.error == NameError && s.coeffs == current
  {
    match ld
    case Some(LdArray(c)) => LdStep(c, false, Pass)
    case Some(LdOther) => LdStep(current, false, Fail(NameError))
    case None =>
      if isModelGrid && changed then LdStep(current, true, Fail(NameError))
      else LdStep(current, false, Pass)
  }

  /** A supplied array wins over the model grid, whatever the stellar
      parameters did. */
  lemma SuppliedCoefficientsWin(current: Tensor, c: Tensor, isModelGrid: bool, changed: bool)
    ensures LdUpdate(current, Some(LdArray(c)), isModelGrid, changed) == LdStep(c, false, Pass)
  {
  }

  /** Without a supplied array the coefficients never change: they are kept,
      or the attempt to regenerate them fails. */
  lemma NoArrayKeepsCoefficients(current: Tensor, ld: Option<LdArg>, isModelGrid: bool, changed: bool)
    requires ld.None? || ld == Some(LdOther)
    ensures LdUpdate(current, ld, isModelGrid, changed).coeffs == current
    ensures LdUpdate(current, ld, isModelGrid, changed).outcome.Pass? <==> ld.None? && !(isModelGrid && changed)
  {
  }
}
