/** The second-generation simulator (`awesimsoss`): a `TSO` object built from
    a star, an exposure layout and the orders to simulate, and its
    `run_simulation`, which zeroes the exposure, optionally installs a
    planet and its transit model, computes every order's frames from the
    light curves of its 2048 columns, adds them up, and passes the sum
    through the noise model, the reference pixels and the SUBSTRIP96 trim.
    The optics (`psf_lightcurve`, `make_frame`, the PSF cubes, the spectral
    response) and the noise generators are functions given to the model. */
module AwesimTso {
  import opened Wrappers
  import opened Numpy
  import opened Tensors
  import opened FrameTimes
  import opened Orders
  import opened StarCheck
  import opened Transit
  import opened Detector
  import Lightcurve

  /** One column's point-spread function: a small image. */
  type Patch = seq<seq<real>>

  /** `patch * v`. */
  function ScalePatch(p: Patch, v: real): (q: Patch)
    ensures |q| == |p|
    ensures forall y :: 0 <= y < |p| ==> q[y] == Scale(p[y], v)
  {
    seq(|p|, y requires 0 <= y < |p| => Scale(p[y], v))
  }

  /** `cube * flux[:, None, None]`: column `j`'s PSF scaled by the flux at
      column `j`. */
  function ScaledCube(cube: seq<Patch>, flux: seq<real>): (c: seq<Patch>)
    requires |cube| == |flux|
    ensures |c| == |cube|
    ensures forall j :: 0 <= j < |cube| ==> c[j] == ScalePatch(cube[j], flux[j])
  {
    seq(|cube|, j requires 0 <= j < |cube| => ScalePatch(cube[j], flux[j]))
  }

  /** `np.interp(wave, star[0], star[1], left=0, right=0)`: the star's flux at
      each column's wavelength, zero off the star's grid. */
  function Flux(wave: seq<real>, star: Lightcurve.Spectrum): (f: seq<real>)
    requires Lightcurve.Interpolable(star)
    ensures |f| == |wave|
    ensures forall j :: 0 <= j < |wave| && (wave[j] > star.wave[|star.wave| - 1] || wave[j] < star.wave[0]) ==> f[j] == 0.0
  {
    seq(|wave|, j requires 0 <= j < |wave| => Interp(wave[j], star.wave, star.values, 0.0, 0.0))
  }

  /** The order-`o` PSF cubes of the constructor, each scaled by the star. */
  function PsfCubes(orders: seq<int>, filt: string, avgWave: seq<seq<real>>, star: Lightcurve.Spectrum,
                    psfCube: (string, int) -> seq<Patch>): (m: map<int, seq<Patch>>)
    requires |avgWave| == 3 && (|orders| > 0 ==> Lightcurve.Interpolable(star))
    requires |psfCube(filt, 1)| == |avgWave[0]| && |psfCube(filt, 2)| == |avgWave[1]|
    requires forall o :: o in orders ==> o == 1 || o == 2
    ensures forall o :: o in m <==> o in orders
    ensures forall o :: o in m ==> m[o] == ScaledCube(psfCube(filt, o), Flux(avgWave[o - 1], star))
  {
    map o | o in orders :: ScaledCube(psfCube(filt, o), Flux(avgWave[o - 1], star))
  }

  /** What the constructor decides before the object exists: the star check,
      the orders, the F277W rule, and the interpolation of the star that the
      PSF scaling needs for every order. */
  function InitOrders(star: StarArg, filt: string, orders: OrdersArg): (r: Result<seq<int>>)
    ensures CheckStar(star).Fail? ==> r == Err(CheckStar(star).error)
    ensures CheckStar(star).Pass? && NormaliseOrders(orders).Err? ==> r == Err(TypeError)
    ensures CheckStar(star).Pass? && NormaliseOrders(orders).Ok? ==>
      var os := NewerFilterRule(NormaliseOrders(orders).value, filt);
      r == if |os| > 0 && !Lightcurve.Interpolable(StarSpectrum(star)) then Err(ValueError) else Ok(os)
  {
    var c := CheckStar(star);
    if c.Fail? then Err(c.error)
    else
      var os :- NormaliseOrders(orders);
      var os' := NewerFilterRule(os, filt);
      if |os'| > 0 && !Lightcurve.Interpolable(StarSpectrum(star)) then Err(ValueError) else Ok(os')
  }

  /** The orders a constructed object simulates are distinct, ascending and
      valid, and F277W leaves order 1 alone. */
  lemma InitOrdersSpec(star: StarArg, filt: string, orders: OrdersArg)
    requires InitOrders(star, filt, orders).Ok?
    ensures var os := InitOrders(star, filt, orders).value;
      && (forall i :: 0 <= i < |os| ==> ValidOrder(os[i]))
      && (forall i, j :: 0 <= i < j < |os| ==> os[i] < os[j])
      && (filt == F277W ==> os == [1])
      && (filt != F277W ==> forall o :: o in os <==> o in AsList(orders))
  {
    NormaliseOrdersSpec(orders);
  }

  /** `np.tile(time[:ngrps], nints)`. */
  function TileTimes(time: seq<real>, ngrps: nat, nints: nat): (ft: seq<real>)
    ensures |ft| == Min(ngrps, |time|) * nints
  {
    if nints == 0 then [] else TileTimes(time, ngrps, nints - 1) + time[..Min(ngrps, |time|)]
  }

  /** A positive product has positive factors. */
  lemma PositiveFactors(a: nat, b: nat)
    requires a * b > 0
    ensures a > 0 && b > 0
  {
  }

  /** Entry `k` of the tiled axis is sample `k mod m` of the first `m` samples. */
  lemma {:induction false} TileTimesAt(time: seq<real>, ngrps: nat, nints: nat, k: nat)
    requires k < Min(ngrps, |time|) * nints
    ensures Min(ngrps, |time|) > 0
    ensures TileTimes(time, ngrps, nints)[k] == time[k % Min(ngrps, |time|)]
  {
    var m := Min(ngrps, |time|);
    PositiveFactors(m, nints);
    var prev := TileTimes(time, ngrps, nints - 1);
    assert |prev| == m * (nints - 1) == m * nints - m;
    if k < |prev| {
      TileTimesAt(time, ngrps, nints - 1, k);
    } else {
      DivModUnique(k, m, nints - 1, k - |prev|);
    }
  }

  /** On the exposure's own axis (`nints*ngrps` samples) the tiled axis has one
      entry per sample. */
  lemma TileLength(time: seq<real>, ngrps: nat, nints: nat)
    requires ngrps > 0 && |time| == nints * ngrps
    ensures ngrps <= |time| || |time| == 0
    ensures |TileTimes(time, ngrps, nints)| == |time|
  {
    if nints > 0 {
      MulMonotone(1, nints, ngrps);
    }
  }

  /** On the exposure's own axis frame `k` is scaled by the time of group
      `k mod ngrps` of the first integration. */
  lemma TiledExposure(time: seq<real>, ngrps: nat, nints: nat, k: nat)
    requires ngrps > 0 && |time| == nints * ngrps && k < |time|
    ensures k % ngrps < |time|
    ensures |TileTimes(time, ngrps, nints)| == |time|
    ensures TileTimes(time, ngrps, nints)[k] == time[k % ngrps]
  {
    TileLength(time, ngrps, nints);
    TileTimesAt(time, ngrps, nints, k);
  }

  /** The optics of one run: the spectral response of an order through a
      filter, `np.sqrt`, one column's light curve (`psf_lightcurve`, a PSF frame
      for every time sample) and the placement of a frame's columns on the
      detector (`make_frame`). */
  datatype Optics = Optics(response: (int, string) -> seq<real>,
                           sqrt: real -> real,
                           psfLightcurve: (real, Patch, real, seq<real>, real, seq<real>, Option<TransitState>) -> seq<Patch>,
                           makeFrame: seq<Patch> -> Frame)

  /** A light curve has one PSF frame per time sample. */
  ghost predicate LightcurvesShaped(op: Optics) {
    forall w, p, r, ld, rp, time, s :: |op.psfLightcurve(w, p, r, ld, rp, time, s)| == |time|
  }

  /** `make_frame` yields frames of `rows` rows and `cols` columns. */
  ghost predicate MakesFrames(op: Optics, rows: nat, cols: nat) {
    forall ps :: |op.makeFrame(ps)| == rows && forall y :: 0 <= y < rows ==> |op.makeFrame(ps)[y]| == cols
  }

  /** `self.rp`: the square root of the planet's transit depth interpolated at
      each column's wavelength, or ones without a planet. */
  function PlanetRadius(wave: seq<real>, planet: Option<Lightcurve.Spectrum>, sqrt: real -> real): (r: Result<seq<real>>)
    ensures r.Err? <==> planet.Some? && !Lightcurve.Interpolable(planet.value)
    ensures r.Err? ==> r.error == ValueError
    ensures r.Ok? ==> |r.value| == |wave|
    ensures r.Ok? && planet.None? ==> forall j :: 0 <= j < |wave| ==> r.value[j] == 1.0
  {
    match planet
    case None => Ok(Repeat(1.0, |wave|))
    case Some(p) =>
      if !Lightcurve.Interpolable(p) then Err(ValueError)
      else Ok(seq(|wave|, j requires 0 <= j < |wave| => sqrt(InterpDefault(wave[j], p.wave, p.values))))
  }

  /** How many columns `zip` pairs up: the shortest of its inputs. */
  function ZipLength(a: nat, b: nat, c: nat, d: nat, e: nat): (n: nat)
    ensures n <= a && n <= b && n <= c && n <= d && n <= e
    ensures n == a || n == b || n == c || n == d || n == e
  {
    Min(Min(Min(Min(a, b), c), d), e)
  }

  /** The light curves of the zipped columns. */
  function Curves(wave: seq<real>, cube: seq<Patch>, response: seq<real>, ld: Frame, rp: seq<real>,
                  time: seq<real>, state: Option<TransitState>, op: Optics): (cs: seq<seq<Patch>>)
    requires LightcurvesShaped(op)
    ensures |cs| == ZipLength(|wave|, |cube|, |response|, |ld|, |rp|)
    ensures forall j :: 0 <= j < |cs| ==> cs[j] == op.psfLightcurve(wave[j], cube[j], response[j], ld[j], rp[j], time, state)
    ensures forall j :: 0 <= j < |cs| ==> |cs[j]| == |time|
  {
    var n := ZipLength(|wave|, |cube|, |response|, |ld|, |rp|);
    var lc := op.psfLightcurve;
    assert forall w, p, r, ld, rp, time, s :: |lc(w, p, r, ld, rp, time, s)| == |time|;
    seq(n, j requires 0 <= j < n => lc(wave[j], cube[j], response[j], ld[j], rp[j], time, state))
  }

  /** Frame `k` of an order: every column's PSF at sample `k`, scaled by the
      tiled time of that sample, placed on the detector. */
  function FrameAt(curves: seq<seq<Patch>>, ft: seq<real>, k: nat, op: Optics): Frame
    requires forall j :: 0 <= j < |curves| ==> k < |curves[j]|
    requires k < |ft|
  {
    op.makeFrame(seq(|curves|, j requires 0 <= j < |curves| => ScalePatch(curves[j][k], ft[k])))
  }

  /** The frames of an order. No column at all leaves a one-dimensional array
      that `swapaxes` rejects. */
  function OrderFrames(wave: seq<real>, cube: seq<Patch>, response: seq<real>, ld: Frame, rp: seq<real>,
                       time: seq<real>, ngrps: nat, nints: nat, state: Option<TransitState>, op: Optics): (r: Result<Tensor>)
    requires ngrps > 0 && |time| == nints * ngrps
    requires LightcurvesShaped(op)
    ensures r.Err? <==> ZipLength(|wave|, |cube|, |response|, |ld|, |rp|) == 0
    ensures r.Err? ==> r.error == ValueError
    ensures r.Ok? ==> |r.value| == |time|
  {
    var curves := Curves(wave, cube, response, ld, rp, time, state, op);
    if |curves| == 0 then Err(ValueError)
    else
      var ft := TileTimes(time, ngrps, nints);
      assert |ft| == |time| by { TileLength(time, ngrps, nints); }
      Ok(seq(|time|, k requires 0 <= k < |time| => FrameAt(curves, ft, k, op)))
  }

  /** Frame `k` of an order is made from the columns' PSFs at sample `k`
      scaled by `time[k mod ngrps]`. */
  lemma OrderFramesScaling(wave: seq<real>, cube: seq<Patch>, response: seq<real>, ld: Frame, rp: seq<real>,
                           time: seq<real>, ngrps: nat, nints: nat, state: Option<TransitState>, op: Optics, k: nat)
    requires ngrps > 0 && |time| == nints * ngrps
    requires LightcurvesShaped(op)
    requires OrderFrames(wave, cube, response, ld, rp, time, ngrps, nints, state, op).Ok? && k < |time|
    ensures k % ngrps < |time|
    ensures var curves := Curves(wave, cube, response, ld, rp, time, state, op);
      OrderFrames(wave, cube, response, ld, rp, time, ngrps, nints, state, op).value[k]
        == op.makeFrame(seq(|curves|, j requires 0 <= j < |curves| => ScalePatch(curves[j][k], time[k % ngrps])))
  {
    TiledExposure(time, ngrps, nints, k);
  }

  /** The frames of an order come out in `make_frame`'s shape. */
  lemma OrderFramesShaped(wave: seq<real>, cube: seq<Patch>, response: seq<real>, ld: Frame, rp: seq<real>,
                          time: seq<real>, ngrps: nat, nints: nat, state: Option<TransitState>, op: Optics,
                          rows: nat, cols: nat)
    requires ngrps > 0 && |time| == nints * ngrps
    requires LightcurvesShaped(op) && MakesFrames(op, rows, cols)
    requires OrderFrames(wave, cube, response, ld, rp, time, ngrps, nints, state, op).Ok?
    ensures Shaped(OrderFrames(wave, cube, response, ld, rp, time, ngrps, nints, state, op).value, |time|, rows, cols)
  {
    var frames := OrderFrames(wave, cube, response, ld, rp, time, ngrps, nints, state, op).value;
    var curves := Curves(wave, cube, response, ld, rp, time, state, op);
    var ft := TileTimes(time, ngrps, nints);
    TileLength(time, ngrps, nints);
    var mf := op.makeFrame;
    assert forall ps :: |mf(ps)| == rows && forall y :: 0 <= y < rows ==> |mf(ps)[y]| == cols;
    forall k | 0 <= k < |frames| ensures |frames[k]| == rows && forall y :: 0 <= y < rows ==> |frames[k][y]| == cols {
      assert frames[k] == FrameAt(curves, ft, k, op);
    }
  }

  /** The exposure facts the constructor fixes and no run changes. */
  datatype Setup = Setup(subarray: string, nrows: nat, ncols: nat, ngrps: nat, nints: nat, nresets: nat,
                         frameTime: real, time: seq<real>, nframes: nat, filter: string, star: StarArg,
                         avgWave: seq<seq<real>>, orders: seq<int>, psfs: map<int, seq<Patch>>)

  predicate SetupValid(s: Setup) {
    && s.ncols == 2048 && s.nresets == 1
    && s.ngrps > 0 && s.nints > 0
    && |s.time| == s.nframes == s.nints * s.ngrps
    && |s.avgWave| == 3
    && GoodStar(s.star)
    && (forall i :: 0 <= i < |s.orders| ==> ValidOrder(s.orders[i]) && s.orders[i] in s.psfs)
    && (forall i, j :: 0 <= i < j < |s.orders| ==> s.orders[i] < s.orders[j])
  }

  /** One iteration of the order loop: the order's wavelengths, its PSF cube,
      its coefficients (`ld_coeffs[order-1]`, an `IndexError` past the end),
      the planet radius and the frames. */
  function OrderCube(s: Setup, order: int, ldCoeffs: Tensor, planet: Option<Lightcurve.Spectrum>,
                     state: Option<TransitState>, op: Optics): (r: Result<Tensor>)
    requires SetupValid(s) && ValidOrder(order) && order in s.psfs
    requires LightcurvesShaped(op)
    ensures r == Err(IndexError) <==> |ldCoeffs| < order
    ensures r.Err? && |ldCoeffs| >= order ==> r.error == ValueError
    ensures r.Ok? ==> |r.value| == s.nframes
  {
    var wave := s.avgWave[order - 1];
    match PyIndex(order - 1, |ldCoeffs|)
    case None => Err(IndexError)
    case Some(i) =>
      var rp :- PlanetRadius(wave, planet, op.sqrt);
      OrderFrames(wave, s.psfs[order], op.response(order, s.filter), ldCoeffs[i], rp, s.time, s.ngrps, s.nints, state, op)
  }

  /** A planet spectrum that cannot be interpolated stops every order that has
      coefficients. */
  lemma BadPlanetStopsOrder(s: Setup, order: int, ldCoeffs: Tensor, planet: Lightcurve.Spectrum,
                            state: Option<TransitState>, op: Optics)
    requires SetupValid(s) && ValidOrder(order) && order in s.psfs
    requires LightcurvesShaped(op)
    requires |ldCoeffs| >= order && !Lightcurve.Interpolable(planet)
    ensures OrderCube(s, order, ldCoeffs, Some(planet), state, op) == Err(ValueError)
  {
  }

  /** The cubes are in `make_frame`'s shape. */
  lemma OrderCubeShaped(s: Setup, order: int, ldCoeffs: Tensor, planet: Option<Lightcurve.Spectrum>,
                        state: Option<TransitState>, op: Optics, rows: nat)
    requires SetupValid(s) && ValidOrder(order) && order in s.psfs
    requires LightcurvesShaped(op) && MakesFrames(op, rows, s.ncols)
    requires OrderCube(s, order, ldCoeffs, planet, state, op).Ok?
    ensures Shaped(OrderCube(s, order, ldCoeffs, planet, state, op).value, s.nframes, rows, s.ncols)
  {
    var wave := s.avgWave[order - 1];
    var i := order - 1;
    var rp := PlanetRadius(wave, planet, op.sqrt).value;
    OrderFramesShaped(wave, s.psfs[order], op.response(order, s.filter), ldCoeffs[i], rp, s.time, s.ngrps, s.nints,
      state, op, rows, s.ncols);
  }

  /** What every order of the run yields. */
  function OrderResults(s: Setup, ldCoeffs: Tensor, planet: Option<Lightcurve.Spectrum>,
                        state: Option<TransitState>, op: Optics): (rs: seq<Result<Tensor>>)
    requires SetupValid(s) && LightcurvesShaped(op)
    ensures |rs| == |s.orders|
    ensures forall i :: 0 <= i < |rs| ==> rs[i] == OrderCube(s, s.orders[i], ldCoeffs, planet, state, op)
  {
    seq(|s.orders|, i requires 0 <= i < |s.orders| => OrderCube(s, s.orders[i], ldCoeffs, planet, state, op))
  }

  /** The rows the frames have once the SUBSTRIP96 trim has been applied. */
  function FinalRows(s: Setup, rows: nat): nat {
    if s.subarray == "SUBSTRIP96" then Min(s.nrows, rows) else rows
  }

  /** `t[:, :nrows, :]` on a SUBSTRIP96 exposure, `t` otherwise. */
  function Trimmed(s: Setup, t: Tensor, rows: nat): (u: Tensor)
    requires Shaped(t, s.nframes, rows, s.ncols)
    ensures Shaped(u, s.nframes, FinalRows(s, rows), s.ncols)
  {
    if s.subarray == "SUBSTRIP96" then TopRows(t, rows, s.ncols, s.nrows) else t
  }

  /** Every cube trimmed. */
  function TrimmedCubes(s: Setup, cubes: seq<Tensor>, rows: nat): (ts: seq<Tensor>)
    requires forall i :: 0 <= i < |cubes| ==> Shaped(cubes[i], s.nframes, rows, s.ncols)
    ensures |ts| == |cubes|
    ensures forall i :: 0 <= i < |cubes| ==> ts[i] == Trimmed(s, cubes[i], rows)
  {
    seq(|cubes|, i requires 0 <= i < |cubes| => Trimmed(s, cubes[i], rows))
  }

  /** `np.sum(cubes, axis=0)`. */
  function Ideal(s: Setup, cubes: seq<Tensor>, rows: nat): (t: Tensor)
    requires forall i :: 0 <= i < |cubes| ==> Shaped(cubes[i], s.nframes, rows, s.ncols)
    ensures Shaped(t, s.nframes, rows, s.ncols)
  {
    SumCubes(Zeros(s.nframes, rows, s.ncols), cubes, s.nframes, rows, s.ncols)
  }

  /** The ideal exposure after the noise model and the reference pixels. */
  function Noisy(s: Setup, ideal: Tensor, rows: nat, noise: Noise, dark: seq<seq<real>>, darkCols: nat): (t: Tensor)
    requires SetupValid(s) && Shaped(ideal, s.nframes, rows, s.ncols)
    requires Rectangular(dark, darkCols) && RampShaped(noise, s.ngrps, rows, s.ncols)
    ensures Shaped(t, s.nframes, rows, s.ncols)
  {
    var baseline := Baseline(noise, dark, darkCols, s.ngrps);
    RampsShaped(noise, ideal, baseline, s.ngrps, s.nints, rows, s.ncols);
    Refpixed(Ramps(noise, ideal, baseline, s.ngrps, s.nints), rows, s.ncols, 0.0)
  }

  /** The cubes of the orders that ran are in `make_frame`'s shape. */
  lemma RunCubesShaped(s: Setup, ldCoeffs: Tensor, planet: Option<Lightcurve.Spectrum>,
                       state: Option<TransitState>, op: Optics, rows: nat)
    requires SetupValid(s) && LightcurvesShaped(op) && MakesFrames(op, rows, s.ncols)
    ensures var cubes := RunOrders(OrderResults(s, ldCoeffs, planet, state, op)).0;
      forall i :: 0 <= i < |cubes| ==> Shaped(cubes[i], s.nframes, rows, s.ncols)
  {
    var rs := OrderResults(s, ldCoeffs, planet, state, op);
    var cubes := RunOrders(rs).0;
    forall i | 0 <= i < |cubes| ensures Shaped(cubes[i], s.nframes, rows, s.ncols) {
      OrderCubeShaped(s, s.orders[i], ldCoeffs, planet, state, op, rows);
    }
  }

  /** What the planet step of a run leaves behind: the transit model's state,
      the coefficients, whether a model grid was stored, and the outcome. */
  datatype PlanetResult = PlanetResult(state: TransitState, ldCoeffs: Tensor, gridStored: bool, outcome: Outcome)

  /** The planet step with a valid time unit: `limb_dark` defaults to the
      profile, `t0` is reset, the time axis goes to days, and the stellar
      parameters, compared with those of the previously stored model, decide
      the coefficient update. */
  function PlanetStep(tm: TransitState, prev: Option<TransitState>, ldCoeffs: Tensor, ld: Option<LdArg>,
                      timeUnit: string, ldProfile: string, isModelGrid: bool, time: seq<real>): (p: PlanetResult)
    requires ValidTimeUnit(timeUnit) && |time| > 0
  {
    var state := Prepared(tm, ldProfile, time, timeUnit);
    match CurrentStellar(state)
    case Err(e) => PlanetResult(state, ldCoeffs, false, Fail(e))
    case Ok(current) =>
      var step := LdUpdate(ldCoeffs, ld, isModelGrid, current != PreviousStellar(prev));
      PlanetResult(state, step.coeffs, step.gridStored, step.outcome)
  }

  /** Passing the stored model again, with its stellar parameters and its
      limb-darkening law set, keeps the coefficients even with a model grid. */
  lemma SameModelKeepsCoefficients(tm: TransitState, ldCoeffs: Tensor, timeUnit: string, isModelGrid: bool,
                                   ldProfile: string, time: seq<real>)
    requires ValidTimeUnit(timeUnit) && |time| > 0
    requires tm.teff.Some? && tm.logg.Some? && tm.feh.Some? && tm.limbDark.Some?
    ensures PlanetStep(tm, Some(tm), ldCoeffs, None, timeUnit, ldProfile, isModelGrid, time).ldCoeffs == ldCoeffs
    ensures PlanetStep(tm, Some(tm), ldCoeffs, None, timeUnit, ldProfile, isModelGrid, time).outcome == Pass
  {
  }

  /** The first model passed to an object, with a model grid and no
      coefficients, always differs from "no model" and so reaches the
      setter's `NameError`. */
  lemma FirstRunWithGridFails(tm: TransitState, ldCoeffs: Tensor, timeUnit: string, ldProfile: string, time: seq<real>)
    requires ValidTimeUnit(timeUnit) && |time| > 0
    requires tm.teff.Some? && tm.logg.Some? && tm.feh.Some?
    ensures PlanetStep(tm, None, ldCoeffs, None, timeUnit, ldProfile, true, time).outcome == Fail(NameError)
    ensures PlanetStep(tm, None, ldCoeffs, None, timeUnit, ldProfile, true, time).gridStored
  {
  }

  /** The fields of a `TSO` that a run may change besides its exposures. */
  datatype RunFields = RunFields(ldCoeffs: Tensor, planet: Option<Lightcurve.Spectrum>, tmodel: TransitParams?,
                                 modelGrid: bool)

  /** `a` is `np.zeros((n0, n1, n2))`. */
  ghost predicate ZeroArray(a: array3<real>, n0: nat, n1: nat, n2: nat)
    reads a
  {
    a.Length0 == n0 && a.Length1 == n1 && a.Length2 == n2 && Contents(a) == Zeros(n0, n1, n2)
  }

  /** `tso_ideal = np.sum(...)`, `tso = tso_ideal.copy()`, `add_noise()` and
      `add_refpix()`, on new arrays: the ideal exposure and the noisy one. */
  /** The order exposures, one per order: `tso_order{order}_ideal`. */
  method OrderExposures(first: array3<real>, second: array3<real>, orders: seq<int>) returns (parts: seq<Tensor>)
    ensures |parts| == |orders|
    ensures forall i :: 0 <= i < |orders| ==> parts[i] == Contents(if orders[i] == 1 then first else second)
  {
    parts := seq(|orders|, i requires 0 <= i < |orders| reads first, second =>
      Contents(if orders[i] == 1 then first else second));
  }

  method Expose(s: Setup, ideal: Tensor, rows: nat, noise: Noise, dark: seq<seq<real>>, darkCols: nat)
    returns (i: array3<real>, n: array3<real>)
    requires SetupValid(s) && Shaped(ideal, s.nframes, rows, s.ncols)
    requires Rectangular(dark, darkCols) && RampShaped(noise, s.ngrps, rows, s.ncols)
    ensures fresh(i) && fresh(n)
    ensures i.Length0 == n.Length0 == s.nframes && i.Length1 == n.Length1 == rows
    ensures i.Length2 == n.Length2 == s.ncols
    ensures Contents(i) == ideal && Contents(n) == Noisy(s, ideal, rows, noise, dark, darkCols)
  {
    i := FromTensor(ideal, rows, s.ncols);
    n := FromTensor(ideal, rows, s.ncols);
    AddNoise(n, i, dark, darkCols, noise, s.ngrps, s.nints);
    AddRefpix(n, 0.0);
  }

  /** A second-generation `TSO`. */
  class Tso {
    const subarray: string
    const nrows: nat
    const ncols: nat
    const ngrps: nat
    const nints: nat
    const nresets: nat
    const frameTime: real
    const time: seq<real>
    const nframes: nat
    const filter: string
    const star: StarArg
    const avgWave: seq<seq<real>>
    const orders: seq<int>
    const psfs: map<int, seq<Patch>>
    var ldCoeffs: Tensor
    var planet: Option<Lightcurve.Spectrum>
    var tmodel: TransitParams?
    var modelGrid: bool
    var tso: array3<real>
    var tsoIdeal: array3<real>
    var tsoOrder1Ideal: array3<real>
    var tsoOrder2Ideal: array3<real>

    function Fixed(): Setup {
      Setup(subarray, nrows, ncols, ngrps, nints, nresets, frameTime, time, nframes, filter, star, avgWave, orders, psfs)
    }

    predicate Valid() {
      SetupValid(Fixed())
    }

    /** The stored transit model as the light-curve generator sees it. */
    function TmodelState(): Option<TransitState>
      reads this, tmodel, if tmodel == null then {} else {tmodel.t}
    {
      if tmodel == null then None else Some(tmodel.State())
    }

    /** `tso_order{order}_ideal`. */
    function OrderArray(order: int): array3<real>
      reads this
    {
      if order == 1 then tsoOrder1Ideal else tsoOrder2Ideal
    }

    /** All four exposures hold zeros in the constructor's shape. */
    ghost predicate Zeroed()
      reads this, tso, tsoIdeal, tsoOrder1Ideal, tsoOrder2Ideal
    {
      && ZeroArray(tso, nframes, nrows, ncols) && ZeroArray(tsoIdeal, nframes, nrows, ncols)
      && ZeroArray(tsoOrder1Ideal, nframes, nrows, ncols) && ZeroArray(tsoOrder2Ideal, nframes, nrows, ncols)
    }

    constructor(subarray: string, nrows: nat, ngrps: nat, nints: nat, frameTime: real, time: seq<real>,
                filter: string, star: StarArg, avgWave: seq<seq<real>>, orders: seq<int>, psfs: map<int, seq<Patch>>)
      ensures Fixed() == Setup(subarray, nrows, 2048, ngrps, nints, 1, frameTime, time, |time|, filter, star,
                               avgWave, orders, psfs)
      ensures ldCoeffs == Zeros(3, 2048, 2) && planet.None? && tmodel == null && !modelGrid
      ensures Zeroed()
    {
      var z := Zeros(|time|, nrows, 2048);
      var a0 := FromTensor(z, nrows, 2048);
      var a1 := FromTensor(z, nrows, 2048);
      var a2 := FromTensor(z, nrows, 2048);
      var a3 := FromTensor(z, nrows, 2048);
      this.subarray, this.nrows, this.ncols, this.ngrps, this.nints, this.nresets := subarray, nrows, 2048, ngrps, nints, 1;
      this.frameTime, this.time, this.nframes, this.filter, this.star := frameTime, time, |time|, filter, star;
      this.avgWave, this.orders, this.psfs := avgWave, orders, psfs;
      this.ldCoeffs, this.planet, this.tmodel, this.modelGrid := Zeros(3, 2048, 2), None, null, false;
      this.tso, this.tsoIdeal, this.tsoOrder1Ideal, this.tsoOrder2Ideal := a0, a1, a2, a3;
    }

    /** The fields a run may change besides the exposures. */
    function RunState(): RunFields
      reads this
    {
      RunFields(ldCoeffs, planet, tmodel, modelGrid)
    }

    /** The ideal and the noisy exposure hold `ideal` and `noisy`. */
    ghost predicate ExposuresHold(ideal: Tensor, noisy: Tensor)
      reads this, tso, tsoIdeal
    {
      Contents(tsoIdeal) == ideal && Contents(tso) == noisy
    }

    /** The exposures of the first `|done|` orders hold `done`; those of the
        other orders hold zeros. */
    ghost predicate OrdersHold(done: seq<Tensor>)
      reads this, tsoOrder1Ideal, tsoOrder2Ideal
    {
      && |done| <= |orders|
      && (forall i :: 0 <= i < |done| ==> Contents(OrderArray(orders[i])) == done[i])
      && (forall k :: ValidOrder(k) && k !in orders[..|done|] ==> Contents(OrderArray(k)) == Zeros(nframes, nrows, ncols))
    }

    /** A run stopped before the sum: the noisy and the ideal exposures are
        still zero, and the cubes of the orders that ran are in their
        exposures. */
    ghost predicate Halted(done: seq<Tensor>)
      reads this, tso, tsoIdeal, tsoOrder1Ideal, tsoOrder2Ideal
    {
      ExposuresHold(Zeros(nframes, nrows, ncols), Zeros(nframes, nrows, ncols)) && OrdersHold(done)
    }

    /** A run that went through, with `ideal` the sum of the order cubes and
        `noisy` its ramps with the reference pixels painted: the exposures
        hold these and the order cubes, all trimmed on SUBSTRIP96, and the
        frames have the rows the closing reshape checks. */
    ghost predicate Delivered(cubes: seq<Tensor>, ideal: Tensor, noisy: Tensor, rows: nat)
      reads this, tso, tsoIdeal, tsoOrder1Ideal, tsoOrder2Ideal
      requires Shaped(ideal, nframes, rows, ncols) && Shaped(noisy, nframes, rows, ncols)
      requires forall i :: 0 <= i < |cubes| ==> Shaped(cubes[i], nframes, rows, ncols)
    {
      assert Fixed().ncols == ncols && Fixed().nframes == nframes;
      && |cubes| == |orders|
      && ExposuresHold(Trimmed(Fixed(), ideal, rows), Trimmed(Fixed(), noisy, rows))
      && OrdersHold(TrimmedCubes(Fixed(), cubes, rows))
      && tso.Length1 == FinalRows(Fixed(), rows)
    }

    /** The state once the orders are summed: the order cubes sit in their
        exposures, the other order's exposure is still zero, and the ideal
        and noisy exposures hold `ideal` and `noisy`. */
    ghost predicate Summed(cubes: seq<Tensor>, ideal: Tensor, noisy: Tensor, rows: nat)
      reads this, tso, tsoIdeal, tsoOrder1Ideal, tsoOrder2Ideal
    {
      && Stored(cubes, rows) && |cubes| == |orders|
      && (forall k :: ValidOrder(k) && k !in orders ==> ZeroArray(OrderArray(k), nframes, nrows, ncols))
      && tso.Length0 == nframes && tso.Length1 == rows && tso.Length2 == ncols
      && tsoIdeal.Length0 == nframes && tsoIdeal.Length1 == rows && tsoIdeal.Length2 == ncols
      && ExposuresHold(ideal, noisy)
    }

    /** What the order loop yields on the current state: the cubes of the
        orders up to the first one that fails, and how the loop ends. */
    function Run(op: Optics): (seq<Tensor>, Outcome)
      reads this, tmodel, if tmodel == null then {} else {tmodel.t}
      requires Valid() && LightcurvesShaped(op)
    {
      RunOrders(OrderResults(Fixed(), ldCoeffs, planet, TmodelState(), op))
    }

    /** How a run that reaches the order loop ends: an order that fails
        stops it; no order at all fails on the scalar `np.sum` leaves; a
        single order leaves its three-dimensional cube beside the other
        order's four-dimensional zeros (`np.zeros(self.dims)`), a ragged pair
        that `add_noise` cannot stack, so the run stops with a `ValueError`
        once the sum and its copy are stored; and otherwise it is delivered. */
    ghost predicate Finished(o: Outcome, run: (seq<Tensor>, Outcome), rows: nat, noise: Noise,
                             dark: seq<seq<real>>, darkCols: nat)
      reads this, tso, tsoIdeal, tsoOrder1Ideal, tsoOrder2Ideal
      requires Valid() && RampShaped(noise, ngrps, rows, ncols) && Rectangular(dark, darkCols)
    {
      if run.1.Fail? then o == run.1 && Halted(run.0)
      else if |orders| == 0 then o == Fail(IndexError) && Halted(run.0)
      else
        && (forall i :: 0 <= i < |run.0| ==> Shaped(run.0[i], nframes, rows, ncols))
        && var ideal := Ideal(Fixed(), run.0, rows);
           if |orders| == 1 then o == Fail(ValueError) && Summed(run.0, ideal, ideal, rows)
           else
             && Delivered(run.0, ideal, Noisy(Fixed(), ideal, rows, noise, dark, darkCols), rows)
             && o == (if FinalRows(Fixed(), rows) == nrows then Pass else Fail(ValueError))
    }

    /** `# Clear previous results`. */
    method Reset()
      modifies this
      ensures RunState() == old(RunState()) && TmodelState() == old(TmodelState())
      ensures Zeroed()
    {
      var z := Zeros(nframes, nrows, ncols);
      var a0 := FromTensor(z, nrows, ncols);
      var a1 := FromTensor(z, nrows, ncols);
      var a2 := FromTensor(z, nrows, ncols);
      var a3 := FromTensor(z, nrows, ncols);
      tso, tsoIdeal, tsoOrder1Ideal, tsoOrder2Ideal := a0, a1, a2, a3;
    }

    /** The planet branch of `run_simulation`, taken with a planet and a
        transit model, once the time unit has been accepted. */
    method PlanetBranch(p: Lightcurve.Spectrum, tm: TransitParams, ld: Option<LdArg>, timeUnit: string,
                        ldProfile: string, isModelGrid: bool) returns (o: Outcome)
      requires Valid() && ValidTimeUnit(timeUnit)
      modifies this, tm, tm.t
      ensures tso == old(tso) && tsoIdeal == old(tsoIdeal)
      ensures tsoOrder1Ideal == old(tsoOrder1Ideal) && tsoOrder2Ideal == old(tsoOrder2Ideal)
      ensures var step := PlanetStep(old(tm.State()), old(TmodelState()), old(ldCoeffs), ld, timeUnit, ldProfile,
                               isModelGrid, time);
        && RunState() == RunFields(step.ldCoeffs, Some(p), tm, old(modelGrid) || step.gridStored)
        && tm.State() == step.state
        && o == step.outcome
    {
      var prev := TmodelState();
      ghost var before := tm.State();
      ghost var expected := PlanetStep(before, prev, ldCoeffs, ld, timeUnit, ldProfile, isModelGrid, time);
      planet, tmodel := Some(p), tm;
      tm.Prepare(ldProfile, time, timeUnit);
      var current := CurrentStellar(tm.State());
      if current.Err? {
        return Fail(current.error);
      }
      var step := LdUpdate(ldCoeffs, ld, isModelGrid, current.value != PreviousStellar(prev));
      assert expected == PlanetResult(tm.State(), step.coeffs, step.gridStored, step.outcome);
      ldCoeffs := step.coeffs;
      if step.gridStored {
        modelGrid := true;
      }
      o := step.outcome;
    }

    /** `setattr(self, 'tso_order{}_ideal'.format(order), np.array(psfs))`. */
    method SetOrderIdeal(order: int, cube: Tensor, rows: nat)
      requires ValidOrder(order) && Shaped(cube, nframes, rows, ncols)
      modifies this
      ensures RunState() == old(RunState())
      ensures tso == old(tso) && tsoIdeal == old(tsoIdeal)
      ensures fresh(OrderArray(order)) && Contents(OrderArray(order)) == cube
      ensures OrderArray(order).Length0 == nframes && OrderArray(order).Length1 == rows
      ensures OrderArray(order).Length2 == ncols
      ensures forall k :: k != order && ValidOrder(k) ==> OrderArray(k) == old(OrderArray(k))
    {
      var a := FromTensor(cube, rows, ncols);
      if order == 1 {
        tsoOrder1Ideal := a;
      } else {
        tsoOrder2Ideal := a;
      }
    }

    /** The cubes of the first `|cubes|` orders sit in their exposures. */
    ghost predicate Stored(cubes: seq<Tensor>, rows: nat)
      reads this, tsoOrder1Ideal, tsoOrder2Ideal
    {
      && |cubes| <= |orders|
      && forall j :: 0 <= j < |cubes| ==>
        && Contents(OrderArray(orders[j])) == cubes[j]
        && OrderArray(orders[j]).Length0 == nframes && OrderArray(orders[j]).Length1 == rows
        && OrderArray(orders[j]).Length2 == ncols
    }

    /** The order loop: every order's cube goes to its own exposure, up to
        the first order that fails. */
    method ComputeOrders(op: Optics, rows: nat) returns (o: Outcome, ghost cubes: seq<Tensor>)
      requires Valid() && LightcurvesShaped(op) && MakesFrames(op, rows, ncols)
      modifies this
      ensures RunState() == old(RunState())
      ensures tso == old(tso) && tsoIdeal == old(tsoIdeal)
      ensures (cubes, o) == Run(op)
      ensures Stored(cubes, rows)
      ensures forall k :: ValidOrder(k) && k !in orders[..|cubes|] ==> OrderArray(k) == old(OrderArray(k))
    {
      ghost var rs := OrderResults(Fixed(), ldCoeffs, planet, TmodelState(), op);
      ghost var first, second := tsoOrder1Ideal, tsoOrder2Ideal;
      cubes := [];
      var i := 0;
      while i < |orders|
        invariant 0 <= i <= |orders| && |cubes| == i
        invariant RunState() == old(RunState())
        invariant tso == old(tso) && tsoIdeal == old(tsoIdeal)
        invariant Walked(rs, cubes, rows, first, second)
      {
        var r := NextOrder(i, op, rows, rs, cubes, first, second);
        if r.Err? {
          o := Fail(r.error);
          RunOrdersDetermined(rs, cubes, o);
          UntouchedOrders(i, first, second);
          return;
        }
        cubes := cubes + [r.value];
        i := i + 1;
      }
      o := Pass;
      RunOrdersDetermined(rs, cubes, o);
      UntouchedOrders(i, first, second);
    }

    /** The order loop after the cubes `cubes`: each is the result of its
        order and sits in that order's exposure, and the exposures of
        orders not reached are still `first` and `second`. */
    ghost predicate Walked(rs: seq<Result<Tensor>>, cubes: seq<Tensor>, rows: nat,
                           first: array3<real>, second: array3<real>)
      reads this, tsoOrder1Ideal, tsoOrder2Ideal
      requires Valid()
    {
      && |cubes| <= |rs| == |orders|
      && (forall j :: 0 <= j < |cubes| ==> rs[j] == Ok(cubes[j]))
      && Stored(cubes, rows)
      && Untouched(|cubes|, first, second)
    }

    /** One pass of the order loop: order `i` computed and, when it
        succeeds, stored. */
    method NextOrder(i: nat, op: Optics, rows: nat, ghost rs: seq<Result<Tensor>>, ghost cubes: seq<Tensor>,
                     ghost first: array3<real>, ghost second: array3<real>) returns (r: Result<Tensor>)
      requires Valid() && LightcurvesShaped(op) && MakesFrames(op, rows, ncols)
      requires rs == OrderResults(Fixed(), ldCoeffs, planet, TmodelState(), op)
      requires i == |cubes| < |orders| && Walked(rs, cubes, rows, first, second)
      modifies this
      ensures RunState() == old(RunState())
      ensures tso == old(tso) && tsoIdeal == old(tsoIdeal)
      ensures r == rs[i]
      ensures r.Err? ==> Walked(rs, cubes, rows, first, second)
      ensures r.Ok? ==> Walked(rs, cubes + [r.value], rows, first, second)
    {
      r := OrderCube(Fixed(), orders[i], ldCoeffs, planet, TmodelState(), op);
      if r.Ok? {
        OrderCubeShaped(Fixed(), orders[i], ldCoeffs, planet, TmodelState(), op, rows);
        StoreOrder(i, r.value, rows, cubes, first, second);
      }
    }

    /** The exposure of an order not among the first `n` is still `first`
        for order 1 and `second` for order 2. */
    ghost predicate Untouched(n: nat, first: array3<real>, second: array3<real>)
      reads this
      requires n <= |orders|
    {
      && (1 !in orders[..n] ==> tsoOrder1Ideal == first)
      && (2 !in orders[..n] ==> tsoOrder2Ideal == second)
    }

    lemma UntouchedOrders(n: nat, first: array3<real>, second: array3<real>)
      requires n <= |orders| && Untouched(n, first, second)
      ensures forall k :: ValidOrder(k) && k !in orders[..n] ==> OrderArray(k) == if k == 1 then first else second
    {
    }

    /** One step of the order loop: order `i`'s cube written after the
        earlier ones, which, the orders being distinct, it leaves alone. */
    method StoreOrder(i: nat, c: Tensor, rows: nat, ghost cubes: seq<Tensor>,
                      ghost first: array3<real>, ghost second: array3<real>)
      requires Valid() && i == |cubes| < |orders| && Stored(cubes, rows)
      requires Shaped(c, nframes, rows, ncols) && Untouched(i, first, second)
      modifies this
      ensures RunState() == old(RunState())
      ensures tso == old(tso) && tsoIdeal == old(tsoIdeal)
      ensures Stored(cubes + [c], rows)
      ensures Untouched(i + 1, first, second)
    {
      SetOrderIdeal(orders[i], c, rows);
      forall j | 0 <= j < i ensures orders[j] != orders[i] {
      }
      assert orders[..i + 1] == orders[..i] + [orders[i]];
      if 1 !in orders[..i + 1] {
        assert OrderArray(1) == old(OrderArray(1));
      }
      if 2 !in orders[..i + 1] {
        assert OrderArray(2) == old(OrderArray(2));
      }
    }

    /** `np.sum` of the order exposures, its `.copy()`, `add_noise()` and
        `add_refpix()`. With one order, `add_noise` fails on its first line,
        the stack of the two order exposures. */
    method SumAndNoise(rows: nat, noise: Noise, dark: seq<seq<real>>, darkCols: nat, ghost cubes: seq<Tensor>)
      returns (o: Outcome)
      requires Valid() && Stored(cubes, rows) && |cubes| == |orders|
      requires forall k :: ValidOrder(k) && k !in orders ==> ZeroArray(OrderArray(k), nframes, nrows, ncols)
      requires RampShaped(noise, ngrps, rows, ncols) && Rectangular(dark, darkCols)
      modifies this
      ensures RunState() == old(RunState())
      ensures forall i :: 0 <= i < |cubes| ==> Shaped(cubes[i], nframes, rows, ncols)
      ensures o == if |orders| == 1 then Fail(ValueError) else Pass
      ensures var ideal := Ideal(Fixed(), cubes, rows);
        Summed(cubes, ideal, if |orders| == 1 then ideal else Noisy(Fixed(), ideal, rows, noise, dark, darkCols), rows)
    {
      var parts := OrderExposures(tsoOrder1Ideal, tsoOrder2Ideal, orders);
      assert parts == cubes;
      if |orders| == 1 {
        StoreSum(Ideal(Fixed(), parts, rows), rows);
        return Fail(ValueError);
      }
      var ideal, noisy := Expose(Fixed(), Ideal(Fixed(), parts, rows), rows, noise, dark, darkCols);
      SetExposures(noisy, ideal);
      o := Pass;
    }

    /** `self.tso_ideal = np.sum(...)` and `self.tso = self.tso_ideal.copy()`. */
    method StoreSum(ideal: Tensor, rows: nat)
      requires Shaped(ideal, nframes, rows, ncols)
      modifies this
      ensures RunState() == old(RunState())
      ensures tsoOrder1Ideal == old(tsoOrder1Ideal) && tsoOrder2Ideal == old(tsoOrder2Ideal)
      ensures tso.Length0 == nframes && tso.Length1 == rows && tso.Length2 == ncols
      ensures tsoIdeal.Length0 == nframes && tsoIdeal.Length1 == rows && tsoIdeal.Length2 == ncols
      ensures fresh(tso) && fresh(tsoIdeal) && ExposuresHold(ideal, ideal)
    {
      var i := FromTensor(ideal, rows, ncols);
      var n := FromTensor(ideal, rows, ncols);
      SetExposures(n, i);
    }

    /** `self.tso = ...; self.tso_ideal = ...`. */
    method SetExposures(noisy: array3<real>, ideal: array3<real>)
      modifies this
      ensures RunState() == old(RunState())
      ensures tso == noisy && tsoIdeal == ideal
      ensures tsoOrder1Ideal == old(tsoOrder1Ideal) && tsoOrder2Ideal == old(tsoOrder2Ideal)
    {
      tso, tsoIdeal := noisy, ideal;
    }

    /** `run_simulation(planet, tmodel, ld_coeffs, time_unit, ld_profile,
        model_grid)`. `tm` is the transit model when the argument is one
        (`null` for `None` or any other object); `op` gives the optics the
        order loop draws on, and `noise`, `dark` the noise model's inputs.
        The exposures are reset first; with a planet and a transit model the
        time unit is checked, the model prepared and the coefficients
        decided; a run that gets through that goes on to the order loop. */
    method RunSimulation(planet: Option<Lightcurve.Spectrum>, tm: TransitParams?, ld: Option<LdArg>,
                         timeUnit: string, ldProfile: string, isModelGrid: bool,
                         op: Optics, rows: nat, noise: Noise, dark: seq<seq<real>>, darkCols: nat)
      returns (o: Outcome)
      requires Valid()
      requires LightcurvesShaped(op) && MakesFrames(op, rows, ncols)
      requires RampShaped(noise, ngrps, rows, ncols) && Rectangular(dark, darkCols)
      modifies this, if planet.Some? && tm != null then {tm, tm.t} else {}
      ensures !(planet.Some? && tm != null) ==>
        && RunState() == old(RunState())
        && (tm != null ==> tm.State() == old(tm.State()))
        && Finished(o, old(Run(op)), rows, noise, dark, darkCols)
      ensures planet.Some? && tm != null && !ValidTimeUnit(timeUnit) ==>
        && o == Fail(ValueError)
        && RunState() == old(RunState()) && tm.State() == old(tm.State())
        && Zeroed()
      ensures planet.Some? && tm != null && ValidTimeUnit(timeUnit) ==>
        var step := PlanetStep(old(tm.State()), old(TmodelState()), old(ldCoeffs), ld, timeUnit, ldProfile,
                               isModelGrid, time);
        && RunState() == RunFields(step.ldCoeffs, planet, tm, old(modelGrid) || step.gridStored)
        && tm.State() == step.state
        && (step.outcome.Fail? ==> o == step.outcome && Zeroed())
        && (step.outcome.Pass? ==>
              Finished(o, RunOrders(OrderResults(Fixed(), step.ldCoeffs, planet, Some(step.state), op)),
                       rows, noise, dark, darkCols))
    {
      ghost var run := Run(op);
      Reset();
      if planet.Some? && tm != null {
        if !ValidTimeUnit(timeUnit) {
          return Fail(ValueError);
        }
        assert tm.State() == old(tm.State());
        o := TransitRun(planet.value, tm, ld, timeUnit, ldProfile, isModelGrid, op, rows, noise, dark, darkCols);
      } else {
        assert Run(op) == run;
        o := Produce(op, rows, noise, dark, darkCols);
      }
    }

    /** The planet branch of `run_simulation` on reset exposures, and the
        order loop when it gets through. */
    method TransitRun(p: Lightcurve.Spectrum, tm: TransitParams, ld: Option<LdArg>,
                      timeUnit: string, ldProfile: string, isModelGrid: bool,
                      op: Optics, rows: nat, noise: Noise, dark: seq<seq<real>>, darkCols: nat)
      returns (o: Outcome)
      requires Valid() && Zeroed() && ValidTimeUnit(timeUnit)
      requires LightcurvesShaped(op) && MakesFrames(op, rows, ncols)
      requires RampShaped(noise, ngrps, rows, ncols) && Rectangular(dark, darkCols)
      modifies this, tm, tm.t
      ensures var step := PlanetStep(old(tm.State()), old(TmodelState()), old(ldCoeffs), ld, timeUnit, ldProfile,
                                     isModelGrid, time);
        && RunState() == RunFields(step.ldCoeffs, Some(p), tm, old(modelGrid) || step.gridStored)
        && tm.State() == step.state
        && (step.outcome.Fail? ==> o == step.outcome && Zeroed())
        && (step.outcome.Pass? ==>
              Finished(o, RunOrders(OrderResults(Fixed(), step.ldCoeffs, Some(p), Some(step.state), op)),
                       rows, noise, dark, darkCols))
    {
      o := PlanetBranch(p, tm, ld, timeUnit, ldProfile, isModelGrid);
      if o.Fail? {
        return;
      }
      o := Produce(op, rows, noise, dark, darkCols);
    }

    /** `run_simulation` from the order loop on. */
    method Produce(op: Optics, rows: nat, noise: Noise, dark: seq<seq<real>>, darkCols: nat) returns (o: Outcome)
      requires Valid() && Zeroed()
      requires LightcurvesShaped(op) && MakesFrames(op, rows, ncols)
      requires RampShaped(noise, ngrps, rows, ncols) && Rectangular(dark, darkCols)
      modifies this
      ensures RunState() == old(RunState())
      ensures Finished(o, old(Run(op)), rows, noise, dark, darkCols)
    {
      ghost var run := Run(op);
      ghost var cubes;
      o, cubes := ComputeOrders(op, rows);
      assert (cubes, o) == run;
      assert forall k :: ValidOrder(k) ==> k == 1 || k == 2;
      if o.Fail? || |orders| == 0 {
        if o.Pass? {
          o := Fail(IndexError);
        }
        assert Halted(cubes);
        return;
      }
      assert orders[..|cubes|] == orders;
      o := Deliver(rows, noise, dark, darkCols, cubes);
    }

    /** The sum, the noise, the reference pixels, the trim and the reshape;
        a single order stops at the noise. */
    method Deliver(rows: nat, noise: Noise, dark: seq<seq<real>>, darkCols: nat, ghost cubes: seq<Tensor>)
      returns (o: Outcome)
      requires Valid() && Stored(cubes, rows) && |cubes| == |orders| > 0
      requires forall k :: ValidOrder(k) && k !in orders ==> ZeroArray(OrderArray(k), nframes, nrows, ncols)
      requires RampShaped(noise, ngrps, rows, ncols) && Rectangular(dark, darkCols)
      modifies this
      ensures RunState() == old(RunState())
      ensures forall i :: 0 <= i < |cubes| ==> Shaped(cubes[i], nframes, rows, ncols)
      ensures |orders| == 1 ==>
        && o == Fail(ValueError)
        && Summed(cubes, Ideal(Fixed(), cubes, rows), Ideal(Fixed(), cubes, rows), rows)
      ensures |orders| != 1 ==>
        && Delivered(cubes, Ideal(Fixed(), cubes, rows),
                     Noisy(Fixed(), Ideal(Fixed(), cubes, rows), rows, noise, dark, darkCols), rows)
        && o == if FinalRows(Fixed(), rows) == nrows then Pass else Fail(ValueError)
    {
      o := SumAndNoise(rows, noise, dark, darkCols, cubes);
      if o.Fail? {
        return;
      }
      o := TrimAndReshape(rows, cubes, Ideal(Fixed(), cubes, rows),
                          Noisy(Fixed(), Ideal(Fixed(), cubes, rows), rows, noise, dark, darkCols));
    }

    /** The SUBSTRIP96 trim of all four exposures and the closing reshape,
        which needs frames of `nrows` rows. */
    method TrimAndReshape(rows: nat, ghost cubes: seq<Tensor>, ghost ideal: Tensor, ghost noisy: Tensor)
      returns (o: Outcome)
      requires Shaped(ideal, nframes, rows, ncols) && Shaped(noisy, nframes, rows, ncols)
      requires Summed(cubes, ideal, noisy, rows)
      modifies this
      ensures RunState() == old(RunState())
      ensures forall i :: 0 <= i < |cubes| ==> Shaped(cubes[i], nframes, rows, ncols)
      ensures Delivered(cubes, ideal, noisy, rows)
      ensures o == if FinalRows(Fixed(), rows) == nrows then Pass else Fail(ValueError)
    {
      if subarray == "SUBSTRIP96" {
        TrimSums(rows, ideal, noisy);
        TrimOrders(rows, cubes);
      } else {
        UntrimmedDelivered(rows, cubes, ideal, noisy);
      }
      o := if tso.Length1 == nrows then Pass else Fail(ValueError);
    }

    /** Off SUBSTRIP96 the summed state is already the delivered one. */
    ghost method UntrimmedDelivered(rows: nat, cubes: seq<Tensor>, ideal: Tensor, noisy: Tensor)
      requires FramesShaped(ideal, rows, ncols) && FramesShaped(noisy, rows, ncols)
      requires forall i :: 0 <= i < |cubes| ==> Shaped(cubes[i], nframes, rows, ncols)
      requires subarray != "SUBSTRIP96" && Summed(cubes, ideal, noisy, rows)
      ensures Delivered(cubes, ideal, noisy, rows)
    {
      assert TrimmedCubes(Fixed(), cubes, rows) == cubes;
      assert orders[..|cubes|] == orders;
    }

    /** `[:, :nrows, :]` on the noisy and the ideal exposure. */
    method TrimSums(rows: nat, ghost ideal: Tensor, ghost noisy: Tensor)
      requires subarray == "SUBSTRIP96"
      requires tso.Length0 == nframes && tso.Length1 == rows && tso.Length2 == ncols
      requires tsoIdeal.Length0 == nframes && tsoIdeal.Length1 == rows && tsoIdeal.Length2 == ncols
      requires ExposuresHold(ideal, noisy)
      modifies this
      ensures RunState() == old(RunState())
      ensures tsoOrder1Ideal == old(tsoOrder1Ideal) && tsoOrder2Ideal == old(tsoOrder2Ideal)
      ensures Shaped(ideal, nframes, rows, ncols) && Shaped(noisy, nframes, rows, ncols)
      ensures ExposuresHold(Trimmed(Fixed(), ideal, rows), Trimmed(Fixed(), noisy, rows))
      ensures tso.Length1 == FinalRows(Fixed(), rows)
    {
      var a0 := Trim(tso, nrows);
      var a1 := Trim(tsoIdeal, nrows);
      tso, tsoIdeal := a0, a1;
    }

    /** `[:, :nrows, :]` on the order exposures. */
    method TrimOrders(rows: nat, ghost cubes: seq<Tensor>)
      requires subarray == "SUBSTRIP96"
      requires Stored(cubes, rows) && |cubes| == |orders|
      requires forall k :: ValidOrder(k) && k !in orders ==> ZeroArray(OrderArray(k), nframes, nrows, ncols)
      modifies this
      ensures RunState() == old(RunState())
      ensures tso == old(tso) && tsoIdeal == old(tsoIdeal)
      ensures forall i :: 0 <= i < |cubes| ==> Shaped(cubes[i], nframes, rows, ncols)
      ensures OrdersHold(TrimmedCubes(Fixed(), cubes, rows))
    {
      ghost var z := Zeros(nframes, nrows, ncols);
      TopRowsAll(z, nrows, ncols);
      assert forall k :: ValidOrder(k) ==> k == 1 || k == 2;
      assert orders[..|cubes|] == orders;
      var a2 := Trim(tsoOrder1Ideal, nrows);
      var a3 := Trim(tsoOrder2Ideal, nrows);
      tsoOrder1Ideal, tsoOrder2Ideal := a2, a3;
    }
  }

  /** `TSO(ngrps, nints, star, filt, subarray, orders)`. The lookups in the
      trace module (`SUBARRAY_Y`, `FRAME_TIMES`, `get_frame_times`, the mean
      wavelength of each order's columns, the PSF cubes) come in as values.
      Nothing checks the exposure's size: an object without groups or
      without integrations is built, and only its runs are outside `Valid`. */
  method NewTso(ngrps: nat, nints: nat, star: StarArg, filt: string, subarray: string, orders: OrdersArg,
                nrows: nat, frameTime: real, time: seq<real>, avgWave: seq<seq<real>>,
                psfCube: (string, int) -> seq<Patch>) returns (r: Result<Tso>)
    requires |time| == nints * ngrps && |avgWave| == 3
    requires |psfCube(filt, 1)| == |avgWave[0]| && |psfCube(filt, 2)| == |avgWave[1]|
    ensures r.Err? <==> InitOrders(star, filt, orders).Err?
    ensures r.Err? ==> r.error == InitOrders(star, filt, orders).error
    ensures r.Ok? ==> var t := r.value;
      && fresh(t) && (t.Valid() <==> ngrps > 0 && nints > 0)
      && t.Fixed() == Setup(subarray, nrows, 2048, ngrps, nints, 1, frameTime, time, |time|, filt, star, avgWave,
                            InitOrders(star, filt, orders).value,
                            PsfCubes(InitOrders(star, filt, orders).value, filt, avgWave, StarSpectrum(star), psfCube))
      && t.ldCoeffs == Zeros(3, 2048, 2) && t.planet.None? && t.tmodel == null && !t.modelGrid
      && t.Zeroed()
  {
    var os := InitOrders(star, filt, orders);
    if os.Err? {
      return Err(os.error);
    }
    InitOrdersSpec(star, filt, orders);
    var psfs := PsfCubes(os.value, filt, avgWave, StarSpectrum(star), psfCube);
    var t := new Tso(subarray, nrows, ngrps, nints, frameTime, time, filt, star, avgWave, os.value, psfs);
    return Ok(t);
  }
}
