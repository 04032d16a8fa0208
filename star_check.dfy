/** The input check of the second-generation simulator's star (`_check_star`):
    a list or tuple of two or three astropy quantities, a wavelength in units
    of length followed by flux densities (and errors) in units of F_lambda. */
module StarCheck {
  import opened Wrappers
  import Lightcurve

  /** The physical kind of an astropy unit, as far as the check can tell. */
  datatype Unit = Length | FluxDensity | OtherUnit

  /** One element of the star argument: a quantity with a unit, or a value
      without one (a bare array). */
  datatype StarItem = Quantity(unit: Unit, values: seq<real>) | Bare(values: seq<real>)

  /** The star argument: a list or tuple of items, or anything else. */
  datatype StarArg = Sequence(items: seq<StarItem>) | NotSequence

  /** Every condition the check demands, stated on its own. */
  predicate GoodStar(star: StarArg) {
    && star.Sequence?
    && (|star.items| == 2 || |star.items| == 3)
    && (forall i :: 0 <= i < |star.items| ==> star.items[i].Quantity?)
    && star.items[0].unit == Length
    && (forall i :: 1 <= i < |star.items| ==> star.items[i].unit == FluxDensity)
  }

  /** A quantity whose first unit is no length, or whose later units are no
      flux density. */
  predicate MisUnited(items: seq<StarItem>)
    requires |items| > 0 && forall i :: 0 <= i < |items| ==> items[i].Quantity?
  {
    items[0].unit != Length || exists i :: 1 <= i < |items| && items[i].unit != FluxDensity
  }

  /** The checks in their order. A bare item makes the error message's
      `', '.join` of type objects raise `TypeError` before the intended
      `ValueError`; every other rejection is a `ValueError`. */
  function CheckStar(star: StarArg): (o: Outcome)
    ensures o.Pass? <==> GoodStar(star)
    ensures o == Fail(TypeError) <==>
      (star.Sequence? && (|star.items| == 2 || |star.items| == 3) &&
       exists i :: 0 <= i < |star.items| && star.items[i].Bare?)
    ensures o.Fail? && o.error != TypeError ==> o.error == ValueError
    ensures o == Fail(ValueError) && star.Sequence? && (|star.items| == 2 || |star.items| == 3) ==>
      (forall i :: 0 <= i < |star.items| ==> star.items[i].Quantity?) && MisUnited(star.items)
  {
    if star.NotSequence? || !(|star.items| == 2 || |star.items| == 3) then Fail(ValueError)
    else if exists i :: 0 <= i < |star.items| && star.items[i].Bare? then Fail(TypeError)
    else if star.items[0].unit != Length then Fail(ValueError)
    else if exists i :: 1 <= i < |star.items| && star.items[i].unit != FluxDensity then Fail(ValueError)
    else Pass
  }

  /** The wavelengths and flux densities of an accepted star. */
  function StarSpectrum(star: StarArg): (s: Lightcurve.Spectrum)
    requires GoodStar(star)
    ensures s.wave == star.items[0].values && s.values == star.items[1].values
  {
    Lightcurve.Spectrum(star.items[0].values, star.items[1].values)
  }

  /** Concrete outcomes: a bare flux array is a `TypeError`, a third item in
      the wrong unit a `ValueError`, a four-item list a `ValueError`. */
  lemma CheckStarExamples(w: seq<real>, f: seq<real>)
    ensures CheckStar(Sequence([Quantity(Length, w), Quantity(FluxDensity, f)])) == Pass
    ensures CheckStar(Sequence([Quantity(Length, w), Bare(f)])) == Fail(TypeError)
    ensures CheckStar(Sequence([Quantity(Length, w), Quantity(FluxDensity, f), Quantity(Length, f)])) == Fail(ValueError)
    ensures CheckStar(Sequence([Quantity(Length, w), Quantity(FluxDensity, f), Quantity(FluxDensity, f),
                                Quantity(FluxDensity, f)])) == Fail(ValueError)
  {
    var bad := [Quantity(Length, w), Quantity(FluxDensity, f), Quantity(Length, f)];
    assert bad[2].unit != FluxDensity;
    var bare := [Quantity(Length, w), Bare(f)];
    assert bare[1].Bare?;
  }
}
