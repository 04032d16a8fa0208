/** The light curve of one detector pixel in the first-generation simulator
    (`lambda_lightcurve`). A pixel far from the trace, bluer than the stellar
    spectrum or outside the F277W band holds only the noise floor; otherwise the
    stellar flux at the pixel's wavelength is converted to ADU/s, scaled by the
    planet's transit light curve, the filter response and the cross-dispersed
    PSF, and samples below the floor have the floor added to them.

    The transit model and the PSF profile are collaborators handed in as
    functions. */
module Lightcurve {
  import opened Wrappers
  import opened Numpy

  /** 1/(h c) in 1/(erg um): energy flux density times wavelength gives photon flux density. */
  const PHOTON_FACTOR: real := 503411665111.4543
  /** The wavelength band, in microns, that the F277W filter passes. */
  const F277W_MIN: real := 2.36989
  const F277W_MAX: real := 3.22972

  const DEFAULT_TRACE_RADIUS: int := 25
  const DEFAULT_FLOOR: real := 2.0
  const DEFAULT_EXTEND: int := 25

  /** A sampled spectrum: a wavelength grid and one value per wavelength
      (stellar flux, or the planet's transit depth). */
  datatype Spectrum = Spectrum(wave: seq<real>, values: seq<real>)

  /** What the simulator knows about one pixel: its wavelength (um), the
      filter response there, its distance from the trace centre, the factor
      that turns photon flux density into ADU/s, and its limb-darkening
      coefficients. */
  datatype Pixel = Pixel(wavelength: real, response: real, distance: real, pfd2adu: real, ldCoeffs: seq<real>)

  /** The transit model: given the limb-darkening profile, its coefficients,
      the transit depth and the time axis, the relative flux at every time. */
  type TransitModel = (string, seq<real>, real, seq<real>) -> seq<real>

  /** The `params` argument: batman's transit parameters, seen as the transit
      model they give, or `None` for the default `''`, a string that has no
      `limb_dark` attribute to set. */
  type Params = Option<TransitModel>

  /** The PSF profile: the relative flux at a distance from the trace centre,
      for wings extended by the given number of points. */
  type PsfProfile = (real, int) -> real

  /** The transit model, when there is one, gives one value per time stamp. */
  ghost predicate TransitShaped(transit: Params) {
    transit.Some? ==> forall profile, u, depth, time :: |transit.value(profile, u, depth, time)| == |time|
  }

  /** The pixel only sees background: too far from the trace, bluer than the
      star's spectrum, or outside the F277W band when that filter is in. */
  predicate Background(px: Pixel, star: Spectrum, filt: string, traceRadius: int, extend: int)
    requires |star.wave| > 0
  {
    || px.distance > (traceRadius + extend) as real
    || px.wavelength < MinOf(star.wave)
    || (filt == "F277W" && px.wavelength < F277W_MIN)
    || (filt == "F277W" && px.wavelength > F277W_MAX)
  }

  /** The stellar flux at the pixel in ADU/s, zero outside the star's grid. */
  function BaseFlux(px: Pixel, star: Spectrum): real
    requires 0 < |star.wave| == |star.values|
  {
    Interp(px.wavelength, star.wave, star.values, 0.0, 0.0) * (px.wavelength * PHOTON_FACTOR) * px.pfd2adu
  }

  /** The planet spectrum can be interpolated: samples present and one depth per wavelength. */
  predicate Interpolable(s: Spectrum) {
    0 < |s.wave| == |s.values|
  }

  /** The relative flux the planet's transit imposes at each time stamp: the
      transit model at the depth interpolated from the planet's spectrum, or
      no change when there is no planet. */
  function TransitCurve(px: Pixel, ldProfile: string, planet: Option<Spectrum>, time: seq<real>,
                        transit: Params): (c: seq<real>)
    requires planet.Some? ==> Interpolable(planet.value) && transit.Some?
    requires TransitShaped(transit)
    ensures |c| == |time|
  {
    if planet.None? then Repeat(1.0, |time|)
    else transit.value(ldProfile, px.ldCoeffs, InterpDefault(px.wavelength, planet.value.wave, planet.value.values), time)
  }

  /** The signal before the floor: base flux, times the transit curve, the
      response and the PSF factor. */
  function Signal(px: Pixel, ldProfile: string, star: Spectrum, planet: Option<Spectrum>, time: seq<real>,
                  extend: int, transit: Params, psf: PsfProfile): (s: seq<real>)
    requires 0 < |star.wave| == |star.values|
    requires planet.Some? ==> Interpolable(planet.value) && transit.Some?
    requires TransitShaped(transit)
    ensures |s| == |time|
  {
    var flux := Repeat(BaseFlux(px, star), |time|);
    var transited := Times(flux, TransitCurve(px, ldProfile, planet, time, transit));
    Scale(Scale(transited, px.response), psf(px.distance, extend))
  }

  /** Samples below the floor have the floor added; the others are kept. */
  function FloorBump(s: seq<real>, floor: real): (r: seq<real>)
    ensures |r| == |s|
  {
    seq(|s|, i requires 0 <= i < |s| => if s[i] < floor then s[i] + floor else s[i])
  }

  /** The light curve of one pixel, or the error Python raises: an empty
      stellar grid has no minimum, interpolation needs one value per sample
      point, and a planet with no `params` object fails on setting
      `params.limb_dark`. */
  function Lightcurve(px: Pixel, ldProfile: string, star: Spectrum, planet: Option<Spectrum>, time: seq<real>,
                      filt: string, traceRadius: int, floor: real, extend: int,
                      transit: Params, psf: PsfProfile): (r: Result<seq<real>>)
    requires TransitShaped(transit)
    ensures r.Err? ==> px.distance <= (traceRadius + extend) as real
    ensures r.Err? ==> r.error == if planet.Some? && transit.None? && 0 < |star.wave| == |star.values|
                                  then AttributeError else ValueError
  {
    if px.distance > (traceRadius + extend) as real then Ok(Repeat(floor, |time|))
    else if |star.wave| == 0 then Err(ValueError)
    else if Background(px, star, filt, traceRadius, extend) then Ok(Repeat(floor, |time|))
    else if |star.wave| != |star.values| then Err(ValueError)
    else if planet.Some? && transit.None? then Err(AttributeError)
    else if planet.Some? && !Interpolable(planet.value) then Err(ValueError)
    else Ok(FloorBump(Signal(px, ldProfile, star, planet, time, extend, transit, psf), floor))
  }

  /** `lambda_lightcurve`: fills the flux array and scales it in place. */
  method LambdaLightcurve(px: Pixel, ldProfile: string, star: Spectrum, planet: Option<Spectrum>, time: seq<real>,
                          filt: string, traceRadius: int, floor: real, extend: int,
                          transit: Params, psf: PsfProfile) returns (r: Result<seq<real>>)
    requires TransitShaped(transit)
    ensures r == Lightcurve(px, ldProfile, star, planet, time, filt, traceRadius, floor, extend, transit, psf)
  {
    var nframes := |time|;
    if px.distance > (traceRadius + extend) as real {
      return Ok(Repeat(floor, nframes));
    }
    if |star.wave| == 0 {
      return Err(ValueError);
    }
    if Background(px, star, filt, traceRadius, extend) {
      return Ok(Repeat(floor, nframes));
    }
    if |star.wave| != |star.values| {
      return Err(ValueError);
    }
    var flux := BaseFluxArray(px, star, nframes);
    ghost var before := flux[..];
    if planet.Some? {
      if transit.None? {
        return Err(AttributeError);
      }
      if !Interpolable(planet.value) {
        return Err(ValueError);
      }
      var depth := InterpDefault(px.wavelength, planet.value.wave, planet.value.values);
      var lc := transit.value(ldProfile, px.ldCoeffs, depth, time);
      TimesInPlace(flux, lc);
    } else {
      TimesOnes(before);
    }
    ghost var transited := flux[..];
    assert transited == Times(before, TransitCurve(px, ldProfile, planet, time, transit));
    ScaleInPlace(flux, px.response);
    var p := psf(px.distance, extend);
    ScaleInPlace(flux, p);
    assert flux[..] == Signal(px, ldProfile, star, planet, time, extend, transit, psf);
    AddFloor(flux, floor);
    return Ok(flux[..]);
  }

  /** `flux = np.ones(nframes) * flux0` with the stellar flux at the pixel in ADU/s. */
  method BaseFluxArray(px: Pixel, star: Spectrum, nframes: nat) returns (flux: array<real>)
    requires 0 < |star.wave| == |star.values|
    ensures fresh(flux) && flux[..] == Repeat(BaseFlux(px, star), nframes)
  {
    var flux0 := Interp(px.wavelength, star.wave, star.values, 0.0, 0.0);
    flux0 := flux0 * (px.wavelength * PHOTON_FACTOR);
    flux0 := flux0 * px.pfd2adu;
    assert flux0 == BaseFlux(px, star);
    flux := new real[nframes](_ => flux0);
    assert flux[..] == Repeat(flux0, nframes);
  }

  /** `lightcurve[lightcurve < floor] += floor`. */
  method AddFloor(flux: array<real>, floor: real)
    modifies flux
    ensures flux[..] == FloorBump(old(flux[..]), floor)
  {
    ghost var raw := flux[..];
    forall i | 0 <= i < flux.Length && flux[i] < floor {
      flux[i] := flux[i] + floor;
    }
    assert flux[..] == FloorBump(raw, floor);
  }

  /** The curve has one sample per time stamp. */
  lemma LightcurveLength(px: Pixel, ldProfile: string, star: Spectrum, planet: Option<Spectrum>, time: seq<real>,
                         filt: string, traceRadius: int, floor: real, extend: int,
                         transit: Params, psf: PsfProfile)
    requires TransitShaped(transit)
    ensures var r := Lightcurve(px, ldProfile, star, planet, time, filt, traceRadius, floor, extend, transit, psf);
      r.Ok? ==> |r.value| == |time|
  {
  }

  /** A background pixel holds the floor at every time stamp, whatever the
      flux, the planet and the collaborators are (only the star's grid must
      be non-empty unless the pixel is outside the trace). */
  lemma BackgroundIsFloor(px: Pixel, ldProfile: string, star: Spectrum, planet: Option<Spectrum>, time: seq<real>,
                          filt: string, traceRadius: int, floor: real, extend: int,
                          transit: Params, psf: PsfProfile)
    requires TransitShaped(transit)
    requires px.distance > (traceRadius + extend) as real || (|star.wave| > 0 && Background(px, star, filt, traceRadius, extend))
    ensures Lightcurve(px, ldProfile, star, planet, time, filt, traceRadius, floor, extend, transit, psf)
      == Ok(Repeat(floor, |time|))
  {
  }

  /** Away from the background every sample is the raw signal, with the floor
      added exactly where the signal is below it; it is not set to the floor. */
  lemma SignalBranch(px: Pixel, ldProfile: string, star: Spectrum, planet: Option<Spectrum>, time: seq<real>,
                     filt: string, traceRadius: int, floor: real, extend: int,
                     transit: Params, psf: PsfProfile)
    requires TransitShaped(transit)
    requires 0 < |star.wave| == |star.values| && !Background(px, star, filt, traceRadius, extend)
    requires planet.Some? ==> Interpolable(planet.value) && transit.Some?
    ensures var r := Lightcurve(px, ldProfile, star, planet, time, filt, traceRadius, floor, extend, transit, psf);
      var s := Signal(px, ldProfile, star, planet, time, extend, transit, psf);
      && r.Ok? && |r.value| == |time|
      && (forall i :: 0 <= i < |time| && s[i] < floor ==> r.value[i] == s[i] + floor)
      && (forall i :: 0 <= i < |time| && floor <= s[i] ==> r.value[i] == s[i])
  {
  }

  /** With a planet but no `params` object (the default `''`), every pixel
      away from the background fails on `params.limb_dark`; the planet's
      spectrum is never looked at. */
  lemma PlanetWithoutParams(px: Pixel, ldProfile: string, star: Spectrum, planet: Spectrum, time: seq<real>,
                            filt: string, traceRadius: int, floor: real, extend: int, psf: PsfProfile)
    requires 0 < |star.wave| == |star.values| && !Background(px, star, filt, traceRadius, extend)
    ensures Lightcurve(px, ldProfile, star, Some(planet), time, filt, traceRadius, floor, extend, None, psf)
      == Err(AttributeError)
  {
  }

  /** A non-negative floor under a non-negative signal: every sample ends at
      or above the floor, and equals it only where the signal was zero or
      exactly the floor. */
  lemma FloorBumpBounds(s: seq<real>, floor: real)
    requires 0.0 <= floor
    requires forall i :: 0 <= i < |s| ==> 0.0 <= s[i]
    ensures forall i :: 0 <= i < |s| ==> floor <= FloorBump(s, floor)[i]
    ensures forall i :: 0 <= i < |s| ==> (FloorBump(s, floor)[i] == floor <==> s[i] == 0.0 || s[i] == floor)
  {
  }

  /** Without a planet the signal is the base flux scaled by the response
      and the PSF factor at every time stamp. */
  lemma NoPlanetSignal(px: Pixel, ldProfile: string, star: Spectrum, time: seq<real>, extend: int,
                       transit: Params, psf: PsfProfile)
    requires 0 < |star.wave| == |star.values|
    requires TransitShaped(transit)
    ensures forall i :: 0 <= i < |time| ==>
      Signal(px, ldProfile, star, None, time, extend, transit, psf)[i]
        == BaseFlux(px, star) * px.response * psf(px.distance, extend)
  {
    var flux := Repeat(BaseFlux(px, star), |time|);
    TimesOnes(flux);
  }

  /** Without a planet the pixel's flux does not change with time. */
  lemma NoPlanetConstant(px: Pixel, ldProfile: string, star: Spectrum, time: seq<real>,
                         filt: string, traceRadius: int, floor: real, extend: int,
                         transit: Params, psf: PsfProfile)
    requires TransitShaped(transit)
    ensures var r := Lightcurve(px, ldProfile, star, None, time, filt, traceRadius, floor, extend, transit, psf);
      r.Ok? ==> forall i, j :: 0 <= i < |time| && 0 <= j < |time| ==> r.value[i] == r.value[j]
  {
    if px.distance <= (traceRadius + extend) as real && 0 < |star.wave| == |star.values|
       && !Background(px, star, filt, traceRadius, extend) {
      NoPlanetSignal(px, ldProfile, star, time, extend, transit, psf);
    }
  }

  /** Redder than the star's last sample, interpolation gives zero flux, so a
      pixel with a non-negative floor holds exactly the floor at every time. */
  lemma BeyondStarIsFloor(px: Pixel, ldProfile: string, star: Spectrum, planet: Option<Spectrum>, time: seq<real>,
                          filt: string, traceRadius: int, floor: real, extend: int,
                          transit: Params, psf: PsfProfile)
    requires TransitShaped(transit)
    requires 0 < |star.wave| == |star.values| && px.wavelength > star.wave[|star.wave| - 1]
    requires planet.Some? ==> Interpolable(planet.value) && transit.Some?
    requires 0.0 <= floor
    ensures Lightcurve(px, ldProfile, star, planet, time, filt, traceRadius, floor, extend, transit, psf)
      == Ok(Repeat(floor, |time|))
  {
    if !Background(px, star, filt, traceRadius, extend) {
      var s := Signal(px, ldProfile, star, planet, time, extend, transit, psf);
      ZeroBeyondStar(px, ldProfile, star, planet, time, extend, transit, psf);
      assert FloorBump(s, floor) == Repeat(floor, |time|);
    }
  }

  /** Redder than the star's last sample the signal is zero at every time. */
  lemma ZeroBeyondStar(px: Pixel, ldProfile: string, star: Spectrum, planet: Option<Spectrum>, time: seq<real>,
                       extend: int, transit: Params, psf: PsfProfile)
    requires TransitShaped(transit)
    requires 0 < |star.wave| == |star.values| && px.wavelength > star.wave[|star.wave| - 1]
    requires planet.Some? ==> Interpolable(planet.value) && transit.Some?
    ensures forall i :: 0 <= i < |time| ==> Signal(px, ldProfile, star, planet, time, extend, transit, psf)[i] == 0.0
  {
    assert BaseFlux(px, star) == 0.0;
  }
}
