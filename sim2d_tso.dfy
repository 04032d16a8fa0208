/** The first-generation time-series simulator (`TSO` of the 2D simulator).
    An object holds the exposure layout, the target and three cubes of shape
    (frames, rows, columns): the total and one per order. `RunSimulation`
    computes, for each requested order, a light curve at every pixel, lays
    the curves out as frames and adds them to the total. The per-order pixel
    maps (wavelength, filter response, distance from the trace, photon-to-ADU
    factor) come from calibration files and a polynomial fit: here they are
    a parameter. */
module Sim2dTso {
  import opened Wrappers
  import opened Numpy
  import opened Tensors
  import opened FrameTimes
  import opened Lightcurve
  import opened Orders
  import opened PyStrings

  const NCOLS: nat := 2048

  /** Detector rows for a subarray name: a name with 256 in it reads 256 rows,
      else one with 96 in it reads 96, else the full 2048. */
  function Rows(subarray: string): (n: nat)
    ensures n == 256 <==> Contains(subarray, "256")
    ensures n == 96 <==> !Contains(subarray, "256") && Contains(subarray, "96")
    ensures n == 2048 <==> !Contains(subarray, "256") && !Contains(subarray, "96")
  {
    if Contains(subarray, "256") then 256 else if Contains(subarray, "96") then 96 else 2048
  }

  /** The standard names read the rows their strips have. */
  lemma RowsOfStrip256()
    ensures Rows("SUBSTRIP256") == 256
  {
    assert "SUBSTRIP256"[8..11] == "256";
    assert WindowAt("SUBSTRIP256", "256", 8);
    ContainsWindow("SUBSTRIP256", "256");
  }

  lemma RowsOfStrip96()
    ensures Rows("SUBSTRIP96") == 96
  {
    assert "SUBSTRIP96"[8..10] == "96";
    assert WindowAt("SUBSTRIP96", "96", 8);
    ContainsWindow("SUBSTRIP96", "96");
    NoDigitTwo("SUBSTRIP96", "256");
  }

  lemma RowsOfFull()
    ensures Rows("FULL") == 2048
  {
    NoDigitTwo("FULL", "256");
    NoDigitNine("FULL", "96");
  }

  /** A needle starting with a character the haystack lacks is not in it. */
  lemma MissingFirst(hay: string, needle: string)
    requires |needle| > 0 && forall i :: 0 <= i < |hay| ==> hay[i] != needle[0]
    ensures !Contains(hay, needle)
  {
    ContainsWindow(hay, needle);
    forall i: nat ensures !WindowAt(hay, needle, i) {
      if i + |needle| <= |hay| {
        assert hay[i..i + |needle|][0] == hay[i];
      }
    }
  }

  lemma NoDigitTwo(hay: string, needle: string)
    requires needle == "256" && (hay == "SUBSTRIP96" || hay == "FULL")
    ensures !Contains(hay, needle)
  {
    MissingFirst(hay, needle);
  }

  lemma NoDigitNine(hay: string, needle: string)
    requires needle == "96" && hay == "FULL"
    ensures !Contains(hay, needle)
  {
    MissingFirst(hay, needle);
  }

  /** The flattened per-pixel maps of one order. */
  datatype OrderMaps = OrderMaps(wave: seq<real>, response: seq<real>, distance: seq<real>, pfd2adu: seq<real>)

  /** The maps of an order as seen through a filter. */
  type MapSource = (int, string) -> OrderMaps

  /** The wavelength-independent inputs all light curves of a run share. */
  datatype Scene = Scene(ldProfile: string, star: Spectrum, planet: Option<Spectrum>, time: seq<real>,
                         filt: string, traceRadius: int, extend: int)

  /** `zip(wave, response, distance, pfd2adu, ld)`: one pixel per position
      that all five sequences have. */
  function Zip(m: OrderMaps, ld: seq<seq<real>>): (px: seq<Pixel>)
    ensures |px| <= |m.wave| && |px| <= |m.response| && |px| <= |m.distance| && |px| <= |m.pfd2adu| && |px| <= |ld|
    ensures |px| == |m.wave| || |px| == |m.response| || |px| == |m.distance| || |px| == |m.pfd2adu| || |px| == |ld|
    ensures forall p :: 0 <= p < |px| ==> px[p] == Pixel(m.wave[p], m.response[p], m.distance[p], m.pfd2adu[p], ld[p])
  {
    var n := Min(Min(Min(|m.wave|, |m.response|), Min(|m.distance|, |m.pfd2adu|)), |ld|);
    seq(n, p requires 0 <= p < n => Pixel(m.wave[p], m.response[p], m.distance[p], m.pfd2adu[p], ld[p]))
  }

  /** The light curve of one pixel with the run's shared inputs (the floor
      keeps its default). */
  function PixelCurve(px: Pixel, sc: Scene, transit: Params, psf: PsfProfile): (r: Result<seq<real>>)
    requires TransitShaped(transit)
    ensures r.Ok? ==> |r.value| == |sc.time|
  {
    LightcurveLength(px, sc.ldProfile, sc.star, sc.planet, sc.time, sc.filt, sc.traceRadius, DEFAULT_FLOOR, sc.extend, transit, psf);
    Lightcurve.Lightcurve(px, sc.ldProfile, sc.star, sc.planet, sc.time, sc.filt, sc.traceRadius, DEFAULT_FLOOR, sc.extend, transit, psf)
  }

  /** `pool.starmap(lambda_lightcurve, pixels)`: the curves of all pixels,
      or the error of the first pixel that fails. */
  function Curves(pixels: seq<Pixel>, sc: Scene, transit: Params, psf: PsfProfile): (r: Result<seq<seq<real>>>)
    requires TransitShaped(transit)
    ensures r.Ok? ==> |r.value| == |pixels|
    ensures r.Ok? ==> forall p :: 0 <= p < |pixels| ==> PixelCurve(pixels[p], sc, transit, psf) == Ok(r.value[p])
    decreases |pixels|
  {
    if pixels == [] then Ok([])
    else
      var init := pixels[..|pixels| - 1];
      var head :- Curves(init, sc, transit, psf);
      var last :- PixelCurve(pixels[|pixels| - 1], sc, transit, psf);
      assert forall p :: 0 <= p < |init| ==> init[p] == pixels[p];
      Ok(head + [last])
  }

  /** A failing map reports the error of its first failing pixel. */
  lemma {:induction false} CurvesFirstError(pixels: seq<Pixel>, sc: Scene, transit: Params, psf: PsfProfile)
    requires TransitShaped(transit)
    requires Curves(pixels, sc, transit, psf).Err?
    ensures exists p :: 0 <= p < |pixels| && PixelCurve(pixels[p], sc, transit, psf) == Err(Curves(pixels, sc, transit, psf).error) &&
                        forall q :: 0 <= q < p ==> PixelCurve(pixels[q], sc, transit, psf).Ok?
    decreases |pixels|
  {
    var init := pixels[..|pixels| - 1];
    assert forall p :: 0 <= p < |init| ==> init[p] == pixels[p];
    if Curves(init, sc, transit, psf).Err? {
      CurvesFirstError(init, sc, transit, psf);
      var p :| 0 <= p < |init| && PixelCurve(init[p], sc, transit, psf) == Err(Curves(init, sc, transit, psf).error) &&
               forall q :: 0 <= q < p ==> PixelCurve(init[q], sc, transit, psf).Ok?;
      assert PixelCurve(pixels[p], sc, transit, psf) == Err(Curves(pixels, sc, transit, psf).error);
    } else {
      var p := |pixels| - 1;
      assert PixelCurve(pixels[p], sc, transit, psf) == Err(Curves(pixels, sc, transit, psf).error);
    }
  }

  /** The curves as a cube: sample `f` of pixel `r * ncols + c` becomes
      frame `f`, row `r`, column `c` (transpose, then C-order reshape). */
  function Frames(curves: seq<seq<real>>, nframes: nat, nrows: nat, ncols: nat): (t: Tensor)
    requires |curves| == nrows * ncols
    requires forall p :: 0 <= p < |curves| ==> |curves[p]| == nframes
    ensures Shaped(t, nframes, nrows, ncols)
  {
    seq(nframes, f requires 0 <= f < nframes =>
      seq(nrows, r requires 0 <= r < nrows =>
        seq(ncols, c requires 0 <= c < ncols => curves[FlatIndex(r, c, ncols, nrows)][f])))
  }

  /** Pixel `p` lands at row `p / ncols`, column `p % ncols` of every frame. */
  lemma FramesPlacePixels(curves: seq<seq<real>>, nframes: nat, nrows: nat, ncols: nat, p: nat, f: nat)
    requires |curves| == nrows * ncols
    requires forall q :: 0 <= q < |curves| ==> |curves[q]| == nframes
    requires p < nrows * ncols && f < nframes
    ensures p / ncols < nrows && p % ncols < ncols
    ensures Frames(curves, nframes, nrows, ncols)[f][p / ncols][p % ncols] == curves[p][f]
  {
    var r, c := p / ncols, p % ncols;
    if r >= nrows {
      MulMonotone(nrows, r, ncols);
    }
    assert FlatIndex(r, c, ncols, nrows) == p;
  }

  /** The cube one order adds, or the error that stops the run at it. The
      coefficients `''` (no copy method) and an order with no coefficient
      plane fail first; a failing pixel fails the order; and unless there
      are no frames the curves must fill the detector for the reshape. */
  function OrderCube(order: int, m: OrderMaps, ldCoeffs: Option<Tensor>, sc: Scene, nrows: nat, ncols: nat,
                     transit: Params, psf: PsfProfile): (r: Result<Tensor>)
    requires TransitShaped(transit)
    ensures r.Ok? ==> Shaped(r.value, |sc.time|, nrows, ncols)
  {
    if ldCoeffs.None? then Err(AttributeError)
    else
      var k := PyIndex(order - 1, |ldCoeffs.value|);
      if k.None? then Err(IndexError)
      else
        var curves :- Curves(Zip(m, ldCoeffs.value[k.value]), sc, transit, psf);
        if |curves| == 0 then Err(ValueError)
        else if |sc.time| == 0 then Ok([])
        else if |curves| != nrows * ncols then Err(ValueError)
        else Ok(Frames(curves, |sc.time|, nrows, ncols))
  }

  /** What each order of the list would yield. */
  function OrderResults(os: seq<int>, maps: MapSource, ldCoeffs: Option<Tensor>, sc: Scene, nrows: nat, ncols: nat,
                        transit: Params, psf: PsfProfile): (rs: seq<Result<Tensor>>)
    requires TransitShaped(transit)
    ensures |rs| == |os|
    ensures forall i :: 0 <= i < |os| ==>
      rs[i] == OrderCube(os[i], maps(os[i], sc.filt), ldCoeffs, sc, nrows, ncols, transit, psf)
  {
    seq(|os|, i requires 0 <= i < |os| => OrderCube(os[i], maps(os[i], sc.filt), ldCoeffs, sc, nrows, ncols, transit, psf))
  }

  /** With coefficients for both orders, a full set of maps, a star whose
      grid and flux match and no planet, an order always yields its cube;
      this is why a run without a planet fills in zero coefficients. */
  lemma OrderCubeSucceeds(order: int, m: OrderMaps, ld: Tensor, sc: Scene, nrows: nat, ncols: nat,
                          transit: Params, psf: PsfProfile)
    requires TransitShaped(transit)
    requires ValidOrder(order) && Shaped(ld, 2, nrows * ncols, 2) && nrows * ncols > 0
    requires |m.wave| == |m.response| == |m.distance| == |m.pfd2adu| == nrows * ncols
    requires 0 < |sc.star.wave| == |sc.star.values| && sc.planet.None?
    ensures OrderCube(order, m, Some(ld), sc, nrows, ncols, transit, psf).Ok?
  {
    var px := Zip(m, ld[order - 1]);
    assert |px| == nrows * ncols;
    forall p | 0 <= p < |px| ensures PixelCurve(px[p], sc, transit, psf).Ok? {
    }
    if Curves(px, sc, transit, psf).Err? {
      CurvesFirstError(px, sc, transit, psf);
    }
  }

  /** The first-generation rule applied again with the filter it recorded
      gives the same orders and filter: a second run repeats the first. */
  lemma OlderFilterRuleStable(orders: seq<int>, filt: string, current: string)
    ensures var first := OlderFilterRule(orders, filt, current);
      OlderFilterRule(orders, filt, first.1) == first
  {
  }

  /** After the cubes `done` of the first orders of `os`: the order-1 cube
      `t1` is the cube of order 1 if that order ran, and otherwise the array
      was not replaced (`same1`); likewise for order 2. */
  predicate Kept(os: seq<int>, done: seq<Tensor>, t1: Tensor, t2: Tensor, same1: bool, same2: bool)
    requires |done| <= |os|
  {
    && (forall j :: 0 <= j < |done| && os[j] == 1 ==> t1 == done[j])
    && (forall j :: 0 <= j < |done| && os[j] == 2 ==> t2 == done[j])
    && ((forall j :: 0 <= j < |done| ==> os[j] != 1) ==> same1)
    && ((forall j :: 0 <= j < |done| ==> os[j] != 2) ==> same2)
  }

  /** Running one more order of a list without repeats keeps `Kept`. */
  lemma KeptStep(os: seq<int>, done: seq<Tensor>, c: Tensor, t1: Tensor, t2: Tensor, same1: bool, same2: bool,
                 t1': Tensor, t2': Tensor, same1': bool, same2': bool)
    requires |done| < |os| && forall j, k :: 0 <= j < k < |os| ==> os[j] != os[k]
    requires Kept(os, done, t1, t2, same1, same2)
    requires os[|done|] == 1 ==> t1' == c
    requires os[|done|] != 1 ==> t1' == t1 && same1' == same1
    requires os[|done|] == 2 ==> t2' == c
    requires os[|done|] != 2 ==> t2' == t2 && same2' == same2
    ensures Kept(os, done + [c], t1', t2', same1', same2')
  {
    var i := |done|;
    var done' := done + [c];
    assert forall j :: 0 <= j < i ==> done'[j] == done[j] && os[j] != os[i];
  }

  /** The fields of a `Tso` other than its cubes. */
  datatype Config = MakeConfig(subarray: string, nrows: nat, ncols: nat, ngrps: nat, nints: nat, nresets: nat,
                           time: seq<real>, nframes: nat, filter: string, star: Spectrum, planet: Option<Spectrum>,
                           ldCoeffs: Option<Tensor>, ldProfile: string, traceRadius: int, extend: int)

  class Tso {
    const subarray: string
    const nrows: nat
    const ncols: nat
    const ngrps: nat
    const nints: nat
    const nresets: nat
    const time: seq<real>
    const nframes: nat
    var filter: string
    const star: Spectrum
    /** `None` stands for the default `''`. */
    const planet: Option<Spectrum>
    /** `None` stands for the default `''`; otherwise a (orders, pixels,
        coefficients) array. */
    var ldCoeffs: Option<Tensor>
    const ldProfile: string
    const traceRadius: int
    const extend: int
    var tso: array3<real>
    var tsoOrder1: array3<real>
    var tsoOrder2: array3<real>

    ghost predicate Valid()
      reads this
    {
      && nrows == Rows(subarray) && ncols == NCOLS
      && nframes == |time| == nints * ngrps
      && tso.Length0 == nframes && tso.Length1 == nrows && tso.Length2 == ncols
      && tsoOrder1.Length0 == nframes && tsoOrder1.Length1 == nrows && tsoOrder1.Length2 == ncols
      && tsoOrder2.Length0 == nframes && tsoOrder2.Length1 == nrows && tsoOrder2.Length2 == ncols
      && tso != tsoOrder1 && tso != tsoOrder2
      && (filter == "CLEAR" || filter == F277W)
    }

    /** The shared light-curve inputs as the object holds them now. */
    function Inputs(): Scene
      reads this
    {
      Scene(ldProfile, star, planet, time, filter, traceRadius, extend)
    }

    /** The object once its time axis is known: filter CLEAR, a profile of
        `''` read as quadratic, and three zero cubes. */
    constructor (subarray: string, ngrps: nat, nints: nat, time: seq<real>, star: Spectrum,
                 planet: Option<Spectrum>, ldCoeffs: Option<Tensor>, ldProfile: string, traceRadius: int, extend: int)
      requires |time| == nints * ngrps
      ensures Valid()
      ensures this.subarray == subarray && this.ngrps == ngrps && this.nints == nints && this.nresets == 1
      ensures this.time == time && this.star == star && this.planet == planet && this.ldCoeffs == ldCoeffs
      ensures this.ldProfile == (if ldProfile == "" then "quadratic" else ldProfile)
      ensures this.traceRadius == traceRadius && this.extend == extend && filter == "CLEAR"
      ensures fresh(tso) && fresh(tsoOrder1) && fresh(tsoOrder2)
      ensures Contents(tso) == Zeros(|time|, Rows(subarray), NCOLS)
      ensures Contents(tsoOrder1) == Zeros(|time|, Rows(subarray), NCOLS)
      ensures Contents(tsoOrder2) == Zeros(|time|, Rows(subarray), NCOLS)
    {
      var rows := Rows(subarray);
      this.subarray := subarray;
      nrows := rows;
      ncols := NCOLS;
      this.ngrps := ngrps;
      this.nints := nints;
      nresets := 1;
      this.time := time;
      nframes := |time|;
      filter := "CLEAR";
      this.star := star;
      this.planet := planet;
      this.ldCoeffs := ldCoeffs;
      this.ldProfile := if ldProfile == "" then "quadratic" else ldProfile;
      this.traceRadius := traceRadius;
      this.extend := extend;
      var zeros := Zeros(|time|, rows, NCOLS);
      var total := FromTensor(zeros, rows, NCOLS);
      var first := FromTensor(zeros, rows, NCOLS);
      var second := FromTensor(zeros, rows, NCOLS);
      tso, tsoOrder1, tsoOrder2 := total, first, second;
    }

    /** Every field but the three cubes. */
    function Config(): Config
      reads this
    {
      MakeConfig(subarray, nrows, ncols, ngrps, nints, nresets, time, nframes, filter, star, planet, ldCoeffs,
             ldProfile, traceRadius, extend)
    }

    /** `self.tso += cube`, then `setattr(self, 'tso_order<order>', cube)`. */
    method AddOrder(order: int, cube: Tensor)
      requires Valid() && Shaped(cube, nframes, nrows, ncols)
      modifies this, tso
      ensures Valid() && Config() == old(Config()) && tso == old(tso)
      ensures Contents(tso) == Add(old(Contents(tso)), cube, nframes, nrows, ncols)
      ensures order == 1 ==> Contents(tsoOrder1) == cube
      ensures order != 1 ==> tsoOrder1 == old(tsoOrder1) && Contents(tsoOrder1) == old(Contents(tsoOrder1))
      ensures order == 2 ==> Contents(tsoOrder2) == cube
      ensures order != 2 ==> tsoOrder2 == old(tsoOrder2) && Contents(tsoOrder2) == old(Contents(tsoOrder2))
    {
      AddInPlace(tso, cube);
      var plane := FromTensor(cube, nrows, ncols);
      if order == 1 {
        tsoOrder1 := plane;
      } else if order == 2 {
        tsoOrder2 := plane;
      }
    }

    /** The run over `os` ended with `outcome`, and the cubes hold what it
        added: the total is `before` plus the cube of every order up to the
        first that failed, each such order's cube is kept as that order's
        cube, and an order that added nothing kept its old cube (`first` for
        order 1, `second` for order 2). */
    ghost predicate Added(os: seq<int>, maps: MapSource, transit: Params, psf: PsfProfile,
                          before: Tensor, first: array3<real>, second: array3<real>, outcome: Outcome)
      requires Valid() && TransitShaped(transit) && Shaped(before, nframes, nrows, ncols)
      reads this, tso, tsoOrder1, tsoOrder2
    {
      var run := RunOrders(OrderResults(os, maps, ldCoeffs, Inputs(), nrows, ncols, transit, psf));
      && outcome == run.1
      && (forall i :: 0 <= i < |run.0| ==> Shaped(run.0[i], nframes, nrows, ncols))
      && Contents(tso) == SumCubes(before, run.0, nframes, nrows, ncols)
      && Kept(os, run.0, Contents(tsoOrder1), Contents(tsoOrder2), tsoOrder1 == first, tsoOrder2 == second)
    }

    /** One successful order of the loop: its cube `c`, the result of that
        order, is added to the total and kept as the order's cube. */
    method Accumulate(order: int, ghost os: seq<int>, ghost results: seq<Result<Tensor>>, ghost done: seq<Tensor>,
                      c: Tensor, ghost base: Tensor, ghost first: array3<real>, ghost second: array3<real>)
      requires Valid() && Shaped(c, nframes, nrows, ncols) && Shaped(base, nframes, nrows, ncols)
      requires |done| < |os| && os[|done|] == order && forall j, k :: 0 <= j < k < |os| ==> os[j] != os[k]
      requires |done| < |results| && results[|done|] == Ok(c)
      requires Progress(os, results, done, base, first, second)
      modifies this, tso
      ensures Valid() && Config() == old(Config()) && tso == old(tso)
      ensures Progress(os, results, done + [c], base, first, second)
    {
      ghost var t1, t2 := Contents(tsoOrder1), Contents(tsoOrder2);
      ghost var same1, same2 := tsoOrder1 == first, tsoOrder2 == second;
      AddOrder(order, c);
      SumCubesSnoc(base, done, c, nframes, nrows, ncols);
      KeptStep(os, done, c, t1, t2, same1, same2, Contents(tsoOrder1), Contents(tsoOrder2),
               tsoOrder1 == first, tsoOrder2 == second);
      assert forall j :: 0 <= j < |done| ==> (done + [c])[j] == done[j];
    }

    /** After the cubes `done` of the first orders of `os`, whose results
        are `results`: each of them succeeded, the total is `base` plus
        their cubes, and the order cubes are kept as `Kept` says. */
    ghost predicate Progress(os: seq<int>, results: seq<Result<Tensor>>, done: seq<Tensor>, base: Tensor,
                             first: array3<real>, second: array3<real>)
      requires Valid() && Shaped(base, nframes, nrows, ncols)
      reads this, tso, tsoOrder1, tsoOrder2
    {
      && |done| <= |os| && |done| <= |results|
      && (forall j :: 0 <= j < |done| ==> results[j] == Ok(done[j]))
      && (forall j :: 0 <= j < |done| ==> Shaped(done[j], nframes, nrows, ncols))
      && Contents(tso) == SumCubes(base, done, nframes, nrows, ncols)
      && Kept(os, done, Contents(tsoOrder1), Contents(tsoOrder2), tsoOrder1 == first, tsoOrder2 == second)
    }

    /** One pass of the order loop: order `os[i]`'s cube, added when it
        succeeds. */
    method AddNext(i: nat, os: seq<int>, maps: MapSource, transit: Params, psf: PsfProfile,
                   ghost results: seq<Result<Tensor>>, ghost done: seq<Tensor>, ghost base: Tensor,
                   ghost first: array3<real>, ghost second: array3<real>)
      returns (cube: Result<Tensor>)
      requires Valid() && TransitShaped(transit) && Shaped(base, nframes, nrows, ncols)
      requires i == |done| < |os| && forall j, k :: 0 <= j < k < |os| ==> os[j] != os[k]
      requires results == OrderResults(os, maps, ldCoeffs, Inputs(), nrows, ncols, transit, psf)
      requires Progress(os, results, done, base, first, second)
      modifies this, tso
      ensures Valid() && Config() == old(Config()) && tso == old(tso)
      ensures cube == results[i]
      ensures cube.Err? ==> Progress(os, results, done, base, first, second)
      ensures cube.Ok? ==> Progress(os, results, done + [cube.value], base, first, second)
    {
      cube := OrderCube(os[i], maps(os[i], filter), ldCoeffs, Inputs(), nrows, ncols, transit, psf);
      if cube.Ok? {
        Accumulate(os[i], os, results, done, cube.value, base, first, second);
      }
    }

    /** The loop over the orders of a run: each order's cube is added in
        turn until one fails. */
    method AddOrders(os: seq<int>, maps: MapSource, transit: Params, psf: PsfProfile)
      returns (outcome: Outcome)
      requires Valid() && TransitShaped(transit)
      requires forall j, k :: 0 <= j < k < |os| ==> os[j] != os[k]
      modifies this, tso
      ensures Valid() && Config() == old(Config()) && tso == old(tso)
      ensures Added(os, maps, transit, psf, old(Contents(tso)), old(tsoOrder1), old(tsoOrder2), outcome)
    {
      ghost var cfg := Config();
      ghost var base := Contents(tso);
      ghost var done: seq<Tensor> := [];
      ghost var results := OrderResults(os, maps, ldCoeffs, Inputs(), nrows, ncols, transit, psf);
      var i := 0;
      while i < |os|
        invariant 0 <= i <= |os| && |done| == i
        invariant Valid() && Config() == cfg && tso == old(tso)
        invariant Progress(os, results, done, base, old(tsoOrder1), old(tsoOrder2))
      {
        var cube := AddNext(i, os, maps, transit, psf, results, done, base, old(tsoOrder1), old(tsoOrder2));
        if cube.Err? {
          RunOrdersDetermined(results, done, Fail(cube.error));
          return Fail(cube.error);
        }
        done := done + [cube.value];
        i := i + 1;
      }
      RunOrdersDetermined(results, done, Pass);
      outcome := Pass;
    }

    /** `run_simulation`: normalise the orders (a `TypeError` leaves the
        object as it was), apply the F277W rule, give a run without a planet
        zero coefficients, then add each order's cube to the total and keep
        it as that order's cube. An order that fails ends the run with its
        error; the orders before it stay added. */
    method RunSimulation(orders: OrdersArg, filt: string, maps: MapSource, transit: Params, psf: PsfProfile)
      returns (outcome: Outcome)
      requires Valid() && TransitShaped(transit)
      modifies this, tso
      ensures Valid()
      ensures tso == old(tso)
      ensures NormaliseOrders(orders).Err? ==>
        && outcome == Fail(TypeError) && filter == old(filter) && ldCoeffs == old(ldCoeffs)
        && tsoOrder1 == old(tsoOrder1) && tsoOrder2 == old(tsoOrder2) && Contents(tso) == old(Contents(tso))
      ensures NormaliseOrders(orders).Ok? ==>
        var rule := OlderFilterRule(NormaliseOrders(orders).value, filt, old(filter));
        && filter == rule.1
        && ldCoeffs == (if planet.None? then Some(Zeros(2, nrows * ncols, 2)) else old(ldCoeffs))
        && Added(rule.0, maps, transit, psf, old(Contents(tso)), old(tsoOrder1), old(tsoOrder2), outcome)
    {
      var normalised := NormaliseOrders(orders);
      if normalised.Err? {
        return Fail(TypeError);
      }
      NormaliseOrdersSpec(orders);
      var rule := OlderFilterRule(normalised.value, filt, filter);
      filter := rule.1;
      assert forall j, k :: 0 <= j < k < |rule.0| ==> rule.0[j] != rule.0[k];
      if planet.None? {
        ldCoeffs := Some(Zeros(2, nrows * ncols, 2));
      }
      outcome := AddOrders(rule.0, maps, transit, psf);
    }
  }

  /** The `TSO` constructor: the time axis of `ngrps` groups in each of
      `nints` integrations, one reset each, from `t0`; an exposure without
      integrations cannot build one. */
  method NewTso(subarray: string, ngrps: nat, nints: nat, t0: real, star: Spectrum, planet: Option<Spectrum>,
                ldCoeffs: Option<Tensor>, ldProfile: string, traceRadius: int, extend: int)
    returns (r: Result<Tso>)
    ensures r.Err? <==> nints == 0
    ensures r.Err? ==> r.error == ValueError
    ensures r.Ok? ==> |r.value.time| == nints * ngrps
    ensures r.Ok? ==> fresh(r.value) && r.value.Valid() && r.value.filter == "CLEAR" && r.value.nresets == 1
    ensures r.Ok? ==> var t := r.value;
      && t.subarray == subarray && t.ngrps == ngrps && t.nints == nints
      && t.star == star && t.planet == planet && t.ldCoeffs == ldCoeffs
      && t.ldProfile == (if ldProfile == "" then "quadratic" else ldProfile)
      && t.traceRadius == traceRadius && t.extend == extend
      && fresh(t.tso) && fresh(t.tsoOrder1) && fresh(t.tsoOrder2)
      && Contents(t.tso) == Zeros(|t.time|, Rows(subarray), NCOLS)
      && Contents(t.tsoOrder1) == Zeros(|t.time|, Rows(subarray), NCOLS)
      && Contents(t.tsoOrder2) == Zeros(|t.time|, Rows(subarray), NCOLS)
    ensures r.Ok? ==> forall i, g :: 0 <= i < nints && 0 <= g < ngrps ==>
      r.value.time[FlatIndex(i, g, ngrps, nints)] == FrameTime(t0, FrameTimeFor(subarray), 1, ngrps, i, g)
  {
    var time := GetFrameTimes(subarray, ngrps, nints, t0, 1);
    if time.Err? {
      return Err(time.error);
    }
    var t := new Tso(subarray, ngrps, nints, time.value, star, planet, ldCoeffs, ldProfile, traceRadius, extend);
    return Ok(t);
  }
}
