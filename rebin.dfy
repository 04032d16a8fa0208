/** Flux-preserving rebinning of a spectrum onto a coarser wavelength grid
    (`rebin_spec`). The spectrum is first resampled `oversamp` times more
    finely (each fine sample carrying `1/oversamp` of the flux density), the
    new grid gets bin edges halfway between its points and one maximal spacing
    beyond its ends, and each new bin sums the fine samples whose wavelength
    falls between its edges. */
module Rebin {
  import opened Wrappers
  import opened Numpy

  /** The input spectrum: wavelengths, flux densities and, when present,
      their uncertainties. */
  datatype Spectrum = Spectrum(wave: seq<real>, flux: seq<real>, err: Option<seq<real>>)

  /** The oversampled spectrum: fine wavelengths, flux shares and, when the
      uncertainties could be interpolated, their shares. */
  datatype FineGrid = FineGrid(wave: seq<real>, flux: seq<real>, err: Option<seq<real>>)

  /** The rebinned spectrum: the new grid and one flux and one error per bin. */
  datatype Rebinned = Rebinned(wave: seq<real>, flux: seq<real>, err: seq<real>)

  predicate FineShaped(f: FineGrid) {
    && |f.flux| == |f.wave|
    && (f.err.Some? ==> |f.err.value| == |f.wave|)
  }

  /** The fractional sample positions 0, 1/oversamp, ..., nlam - 1 (`x0int`). */
  function FinePositions(nlam: nat, oversamp: nat): (x: seq<real>)
    requires nlam > 0 && oversamp >= 1
    ensures |x| == (nlam - 1) * oversamp + 1
  {
    seq((nlam - 1) * oversamp + 1, k => k as real / oversamp as real)
  }

  /** The sample indices 0, 1, ..., nlam - 1 as reals (`x0`). */
  function Indices(nlam: nat): (x: seq<real>)
    ensures |x| == nlam
  {
    seq(nlam, i => i as real)
  }

  /** Resampling onto the fine grid. Interpolation needs a non-empty
      wavelength grid and one flux per wavelength (`ValueError`); an error
      column that is missing or of the wrong length is dropped. */
  function Oversample(spec: Spectrum, oversamp: nat): (r: Result<FineGrid>)
    requires oversamp >= 1
    ensures r.Err? <==> |spec.wave| == 0 || |spec.flux| != |spec.wave|
    ensures r.Err? ==> r.error == ValueError
    ensures r.Ok? ==> FineShaped(r.value) && |r.value.wave| == (|spec.wave| - 1) * oversamp + 1
    ensures r.Ok? ==> (r.value.err.Some? <==> spec.err.Some? && |spec.err.value| == |spec.wave|)
  {
    var nlam := |spec.wave|;
    if nlam == 0 then Err(ValueError)
    else
      var x0 := Indices(nlam);
      var x0int := FinePositions(nlam, oversamp);
      var w0int := seq(|x0int|, k requires 0 <= k < |x0int| => InterpDefault(x0int[k], x0, spec.wave));
      if |spec.flux| != nlam then Err(ValueError)
      else
        var spec0int := seq(|w0int|, k requires 0 <= k < |w0int| =>
          InterpDefault(w0int[k], spec.wave, spec.flux) / oversamp as real);
        var err0int :=
          if spec.err.Some? && |spec.err.value| == nlam then
            Some(seq(|w0int|, k requires 0 <= k < |w0int| => InterpDefault(w0int[k], spec.wave, spec.err.value) / oversamp as real))
          else None;
        Ok(FineGrid(w0int, spec0int, err0int))
  }

  /** The edges before sorting: one maximal spacing below the first point,
      the midpoints of consecutive points, one maximal spacing above the last. */
  function RawEdges(wavnew: seq<real>, maxd: real): (e: seq<real>)
    requires |wavnew| >= 2
    ensures |e| == |wavnew| + 1
    ensures e[0] == wavnew[0] - maxd && e[|wavnew|] == wavnew[|wavnew| - 1] + maxd
    ensures forall i :: 0 <= i < |wavnew| - 1 ==> e[i + 1] == 0.5 * (wavnew[i + 1] + wavnew[i])
  {
    [wavnew[0] - maxd]
      + seq(|wavnew| - 1, i requires 0 <= i < |wavnew| - 1 => 0.5 * (wavnew[i + 1] + wavnew[i]))
      + [wavnew[|wavnew| - 1] + maxd]
  }

  /** The sorted bin edges; a grid of fewer than two points has no spacing to
      take the maximum of (`ValueError`). */
  function BinEdges(wavnew: seq<real>): (r: Result<seq<real>>)
    ensures r.Err? <==> |wavnew| < 2
    ensures r.Err? ==> r.error == ValueError
    ensures r.Ok? ==> |r.value| == |wavnew| + 1 && NonDecreasing(r.value)
    ensures r.Ok? ==> multiset(r.value) == multiset(RawEdges(wavnew, MaxOf(Diff(wavnew))))
  {
    if |wavnew| < 2 then Err(ValueError)
    else Ok(Sort(RawEdges(wavnew, MaxOf(Diff(wavnew)))))
  }

  /** The fine samples of bin `ii`: those from the first at or above its lower
      edge up to the first at or above its upper edge (`searchsorted`). */
  function BinStart(fineWave: seq<real>, edges: seq<real>, ii: nat): (i: nat)
    requires ii < |edges|
    ensures i <= |fineWave|
  {
    SearchLeft(fineWave, edges[ii])
  }

  /** The sum of `values` over the fine samples of bin `ii`. */
  function BinSum(values: seq<real>, fineWave: seq<real>, edges: seq<real>, ii: nat): real
    requires |values| == |fineWave| && ii + 1 < |edges|
  {
    Sum(PySlice(values, BinStart(fineWave, edges, ii), BinStart(fineWave, edges, ii + 1)))
  }

  /** The sum of `values` over the fine samples of each bin. */
  function BinSums(values: seq<real>, fineWave: seq<real>, edges: seq<real>): (s: seq<real>)
    requires |values| == |fineWave| && |edges| >= 1
    ensures |s| == |edges| - 1
    ensures forall ii :: 0 <= ii < |edges| - 1 ==> s[ii] == BinSum(values, fineWave, edges, ii)
  {
    seq(|edges| - 1, ii requires 0 <= ii < |edges| - 1 => BinSum(values, fineWave, edges, ii))
  }

  /** What `rebin_spec` returns, or the error it raises. The error bins are
      zero when the uncertainties were dropped. */
  function Rebin(spec: Spectrum, wavnew: seq<real>, oversamp: nat): (r: Result<Rebinned>)
    requires oversamp >= 1
    ensures r.Ok? ==> r.value.wave == wavnew && 2 <= |wavnew|
  {
    var fine :- Oversample(spec, oversamp);
    var edges :- BinEdges(wavnew);
    Ok(Rebinned(wavnew, BinSums(fine.flux, fine.wave, edges), ErrSums(fine, edges)))
  }

  /** The error bins of `rebin_spec`: their sums, or zeros without uncertainties. */
  function ErrSums(fine: FineGrid, edges: seq<real>): (s: seq<real>)
    requires FineShaped(fine) && |edges| >= 1
    ensures |s| == |edges| - 1
  {
    if fine.err.Some? then BinSums(fine.err.value, fine.wave, edges) else Repeat(0.0, |edges| - 1)
  }

  /** The first `ii` flux and error bins are filled; every later error bin is
      still zero when there are no uncertainties to sum. */
  ghost predicate Filled(specArr: array<real>, errArr: array<real>, fine: FineGrid, edges: seq<real>, ii: nat)
    reads specArr, errArr
    requires FineShaped(fine) && |edges| >= 1
  {
    && specArr.Length == errArr.Length == |edges| - 1 && ii <= |edges| - 1
    && (forall j :: 0 <= j < ii ==> specArr[j] == BinSums(fine.flux, fine.wave, edges)[j])
    && (fine.err.Some? ==> forall j :: 0 <= j < ii ==> errArr[j] == ErrSums(fine, edges)[j])
    && (fine.err.None? ==> forall j :: 0 <= j < errArr.Length ==> errArr[j] == 0.0)
  }

  /** The loop of `rebin_spec`: bin `ii` of the flux, and of the errors when
      there are any, is filled from its index range. */
  method SumBins(fine: FineGrid, edges: seq<real>) returns (specnew: seq<real>, errnew: seq<real>)
    requires FineShaped(fine) && |edges| >= 1
    ensures specnew == BinSums(fine.flux, fine.wave, edges)
    ensures errnew == ErrSums(fine, edges)
  {
    var nbins := |edges| - 1;
    var specArr := new real[nbins](_ => 0.0);
    var errArr := new real[nbins](_ => 0.0);
    var inds2 := seq(nbins, ii requires 0 <= ii < nbins => (BinStart(fine.wave, edges, ii), BinStart(fine.wave, edges, ii + 1)));
    var ii := 0;
    while ii < nbins
      invariant 0 <= ii <= nbins
      invariant Filled(specArr, errArr, fine, edges, ii)
    {
      FillBin(specArr, errArr, fine, edges, ii, inds2[ii].0, inds2[ii].1);
      ii := ii + 1;
    }
    specnew, errnew := specArr[..], errArr[..];
    assert specnew == BinSums(fine.flux, fine.wave, edges);
    if fine.err.Some? {
      assert errnew == ErrSums(fine, edges);
    } else {
      assert errnew == Repeat(0.0, nbins);
    }
  }

  /** One pass of the loop: `specnew[ii]` and, with uncertainties,
      `errnew[ii]` summed over the samples `[lo, hi)` of bin `ii`. */
  method FillBin(specArr: array<real>, errArr: array<real>, fine: FineGrid, edges: seq<real>, ii: nat,
                 lo: nat, hi: nat)
    requires FineShaped(fine) && |edges| >= 1 && specArr != errArr
    requires ii < |edges| - 1 && Filled(specArr, errArr, fine, edges, ii)
    requires lo == BinStart(fine.wave, edges, ii) && hi == BinStart(fine.wave, edges, ii + 1)
    modifies specArr, errArr
    ensures Filled(specArr, errArr, fine, edges, ii + 1)
  {
    specArr[ii] := Sum(PySlice(fine.flux, lo, hi));
    if fine.err.Some? {
      errArr[ii] := Sum(PySlice(fine.err.value, lo, hi));
    }
  }

  /** `rebin_spec`. */
  method RebinSpec(spec: Spectrum, wavnew: seq<real>, oversamp: nat) returns (r: Result<Rebinned>)
    requires oversamp >= 1
    ensures r == Rebin(spec, wavnew, oversamp)
  {
    var fine :- Oversample(spec, oversamp);
    var edges :- BinEdges(wavnew);
    var specnew, errnew := SumBins(fine, edges);
    return Ok(Rebinned(wavnew, specnew, errnew));
  }

  /** On sorted edges consecutive bins share their boundary and no bin runs
      backwards: the bins cut the fine samples into contiguous, disjoint runs. */
  lemma BinsContiguous(fineWave: seq<real>, edges: seq<real>, ii: nat)
    requires NonDecreasing(edges) && ii + 1 < |edges|
    ensures BinStart(fineWave, edges, ii) <= BinStart(fineWave, edges, ii + 1)
  {
    SearchLeftMonotone(fineWave, edges[ii], edges[ii + 1]);
  }

  lemma {:induction false} BinPrefixSum(values: seq<real>, fineWave: seq<real>, edges: seq<real>, k: nat)
    requires |values| == |fineWave| && NonDecreasing(edges) && k < |edges|
    ensures BinStart(fineWave, edges, 0) <= BinStart(fineWave, edges, k)
    ensures Sum(BinSums(values, fineWave, edges)[..k])
         == Sum(values[BinStart(fineWave, edges, 0)..BinStart(fineWave, edges, k)])
  {
    var s := BinSums(values, fineWave, edges);
    if k > 0 {
      BinPrefixSum(values, fineWave, edges, k - 1);
      BinsContiguous(fineWave, edges, k - 1);
      var lo, mid, hi := BinStart(fineWave, edges, 0), BinStart(fineWave, edges, k - 1), BinStart(fineWave, edges, k);
      assert s[..k][..k - 1] == s[..k - 1];
      assert s[..k][k - 1] == BinSum(values, fineWave, edges, k - 1) == Sum(values[mid..hi]);
      SumSplit(values, lo, mid, hi);
    }
  }

  /** The bin sums add up to the sum over the run of fine samples between
      the first and the last edge. */
  lemma BinSumsConserve(values: seq<real>, fineWave: seq<real>, edges: seq<real>)
    requires |values| == |fineWave| && NonDecreasing(edges) && |edges| >= 1
    ensures BinStart(fineWave, edges, 0) <= BinStart(fineWave, edges, |edges| - 1)
    ensures Sum(BinSums(values, fineWave, edges))
         == Sum(values[BinStart(fineWave, edges, 0)..BinStart(fineWave, edges, |edges| - 1)])
  {
    var s := BinSums(values, fineWave, edges);
    BinPrefixSum(values, fineWave, edges, |edges| - 1);
    assert s[..|edges| - 1] == s;
  }

  /** The rebinned flux adds up to the fine flux between the outermost edges:
      no fine sample is counted twice and none between the edges is lost. */
  lemma RebinConservesFlux(spec: Spectrum, wavnew: seq<real>, oversamp: nat)
    requires oversamp >= 1
    requires Rebin(spec, wavnew, oversamp).Ok?
    ensures var fine := Oversample(spec, oversamp).value;
      var edges := BinEdges(wavnew).value;
      var lo, hi := BinStart(fine.wave, edges, 0), BinStart(fine.wave, edges, |wavnew|);
      lo <= hi && Sum(Rebin(spec, wavnew, oversamp).value.flux) == Sum(fine.flux[lo..hi])
  {
    var fine := Oversample(spec, oversamp).value;
    var edges := BinEdges(wavnew).value;
    assert Rebin(spec, wavnew, oversamp).value.flux == BinSums(fine.flux, fine.wave, edges);
    BinSumsConserve(fine.flux, fine.wave, edges);
  }

  /** Rebinning fails exactly when the input grid is empty, the flux does not
      match the wavelengths, or the new grid has fewer than two points; it then
      raises `ValueError`. A successful result has one flux and one error per
      new wavelength. */
  lemma RebinOutcome(spec: Spectrum, wavnew: seq<real>, oversamp: nat)
    requires oversamp >= 1
    ensures var r := Rebin(spec, wavnew, oversamp);
      && (r.Err? <==> |spec.wave| == 0 || |spec.flux| != |spec.wave| || |wavnew| < 2)
      && (r.Err? ==> r.error == ValueError)
      && (r.Ok? ==> r.value.wave == wavnew && |r.value.flux| == |wavnew| && |r.value.err| == |wavnew|)
  {
  }

  /** Without usable uncertainties every error bin is zero. */
  lemma RebinWithoutErrors(spec: Spectrum, wavnew: seq<real>, oversamp: nat)
    requires oversamp >= 1
    requires spec.err.None? || |spec.err.value| != |spec.wave|
    ensures var r := Rebin(spec, wavnew, oversamp);
      r.Ok? ==> forall ii :: 0 <= ii < |r.value.err| ==> r.value.err[ii] == 0.0
  {
  }

  lemma MidpointBetween(a: real, b: real)
    requires a < b
    ensures a < 0.5 * (b + a) < b
  {
  }

  /** Edges that alternate with an increasing grid are sorted. */
  lemma Interleaved(e: seq<real>, w: seq<real>)
    requires |e| == |w| + 1 && Increasing(w)
    requires forall ii :: 0 <= ii < |w| ==> e[ii] < w[ii] < e[ii + 1]
    ensures NonDecreasing(e)
  {
    forall i, j | 0 <= i < j < |e| ensures e[i] <= e[j] {
      var k := j - 1;
      assert e[k] < w[k] < e[k + 1];
      assert e[i] < w[i];
      assert i == k || w[i] < w[k];
    }
  }

  /** With a positive margin, every point of an increasing grid lies
      strictly between its two raw edges. */
  lemma RawEdgesAround(wavnew: seq<real>, maxd: real)
    requires |wavnew| >= 2 && Increasing(wavnew) && maxd > 0.0
    ensures forall ii :: 0 <= ii < |wavnew| ==> RawEdges(wavnew, maxd)[ii] < wavnew[ii] < RawEdges(wavnew, maxd)[ii + 1]
  {
    var n := |wavnew|;
    var e := RawEdges(wavnew, maxd);
    forall ii | 0 <= ii < n ensures e[ii] < wavnew[ii] < e[ii + 1] {
      if ii > 0 {
        MidpointBetween(wavnew[ii - 1], wavnew[ii]);
        assert e[ii] == 0.5 * (wavnew[ii] + wavnew[ii - 1]);
      }
      if ii < n - 1 {
        MidpointBetween(wavnew[ii], wavnew[ii + 1]);
      }
    }
  }

  /** On a strictly increasing new grid the edges come out in construction
      order, so sorting leaves them in place, and every new wavelength lies
      strictly inside its own bin. */
  lemma IncreasingGridEdges(wavnew: seq<real>)
    requires |wavnew| >= 2 && Increasing(wavnew)
    ensures BinEdges(wavnew).Ok?
    ensures BinEdges(wavnew).value == RawEdges(wavnew, MaxOf(Diff(wavnew)))
    ensures forall ii :: 0 <= ii < |wavnew| ==>
      BinEdges(wavnew).value[ii] < wavnew[ii] < BinEdges(wavnew).value[ii + 1]
  {
    var d := Diff(wavnew);
    var maxd := MaxOf(d);
    assert d[0] == wavnew[1] - wavnew[0] > 0.0;
    var e := RawEdges(wavnew, maxd);
    RawEdgesAround(wavnew, maxd);
    Interleaved(e, wavnew);
    SortSorted(e);
  }
}
