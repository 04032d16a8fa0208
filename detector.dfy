/** The detector effects of the second-generation simulator: the dark-ramp
    noise model applied integration by integration (`add_noise`), the
    reference pixels painted on the frame edges (`add_refpix`) and the row
    trim of the SUBSTRIP96 readout. The noise generators themselves
    (`make_exposure`, `add_signal`, `non_linearity`, `add_pedestal`) are
    functions given to the model. */
module Detector {
  import opened Numpy
  import opened Tensors
  import FrameTimes

  /** The detector gain in electrons per ADU. */
  const GAIN: real := 1.61

  /** `darksignal[darksignal < 0] = 0` for one value. */
  function Clamp(v: real): (r: real)
    ensures r >= 0.0
    ensures v >= 0.0 <==> r == v
  {
    if v < 0.0 then 0.0 else v
  }

  /** A reference file read as a 2-D array: `cols` values in every row. */
  predicate Rectangular(d: seq<seq<real>>, cols: nat) {
    forall i :: 0 <= i < |d| ==> |d[i]| == cols
  }

  /** The dark signal after the gain and the clamp. */
  function ClampedDark(dark: seq<seq<real>>, cols: nat): (f: Frame)
    requires Rectangular(dark, cols)
    ensures |f| == |dark| && Rectangular(f, cols)
    ensures forall i, j :: 0 <= i < |dark| && 0 <= j < cols ==> f[i][j] >= 0.0
    ensures forall i, j :: 0 <= i < |dark| && 0 <= j < cols && dark[i][j] >= 0.0 ==> f[i][j] == dark[i][j] * GAIN
    ensures forall i, j :: 0 <= i < |dark| && 0 <= j < cols && dark[i][j] < 0.0 ==> f[i][j] == 0.0
  {
    seq(|dark|, i requires 0 <= i < |dark| => seq(cols, j requires 0 <= j < cols => Clamp(dark[i][j] * GAIN)))
  }

  /** `darksignal = file * gain` followed by the in-place clamp. */
  method DarkSignal(dark: seq<seq<real>>, cols: nat) returns (f: Frame)
    requires Rectangular(dark, cols)
    ensures f == ClampedDark(dark, cols)
  {
    var d := new real[|dark|, cols]((i, j) requires 0 <= i < |dark| && 0 <= j < cols => dark[i][j] * GAIN);
    forall i, j | 0 <= i < d.Length0 && 0 <= j < d.Length1 && d[i, j] < 0.0 {
      d[i, j] := 0.0;
    }
    f := seq(d.Length0, i requires 0 <= i < d.Length0 reads d =>
           seq(d.Length1, j requires 0 <= j < d.Length1 reads d => d[i, j]));
    assert forall i :: 0 <= i < |dark| ==> f[i] == ClampedDark(dark, cols)[i];
  }

  /** The noise generators: the baseline ramp of `ngrps` groups built from the
      dark signal, and the three steps applied to one integration. */
  datatype Noise = Noise(makeExposure: (nat, Frame) -> Tensor,
                         addSignal: (Tensor, Tensor) -> Tensor,
                         nonLinearity: Tensor -> Tensor,
                         addPedestal: Tensor -> Tensor)

  /** The baseline ramp every integration starts from. */
  function Baseline(noise: Noise, dark: seq<seq<real>>, cols: nat, ngrps: nat): Tensor
    requires Rectangular(dark, cols)
  {
    noise.makeExposure(ngrps, ClampedDark(dark, cols))
  }

  /** One integration's frames with noise: signal on a copy of the baseline,
      then non-linearity, then the pedestal. */
  function IntegrationRamp(noise: Noise, ideal: Tensor, baseline: Tensor): Tensor {
    noise.addPedestal(noise.nonLinearity(noise.addSignal(ideal, baseline)))
  }

  /** The generators return a ramp of the integration's shape. */
  ghost predicate RampShaped(noise: Noise, ngrps: nat, rows: nat, cols: nat) {
    forall ideal, baseline :: Shaped(ideal, ngrps, rows, cols) ==>
      Shaped(IntegrationRamp(noise, ideal, baseline), ngrps, rows, cols)
  }

  /** Frames `[n*ngrps, (n+1)*ngrps)`: integration `n`. */
  function Block(t: Tensor, ngrps: nat, n: nat): (b: Tensor)
    requires n * ngrps + ngrps <= |t|
    ensures |b| == ngrps
    ensures forall g :: 0 <= g < ngrps ==> b[g] == t[n * ngrps + g]
  {
    t[n * ngrps..n * ngrps + ngrps]
  }

  /** The first `n` integrations with noise, one after the other. */
  function Ramps(noise: Noise, ideal: Tensor, baseline: Tensor, ngrps: nat, n: nat): Tensor
    requires n * ngrps <= |ideal|
    decreases n
  {
    if n == 0 then []
    else
      assert (n - 1) * ngrps + ngrps == n * ngrps;
      Ramps(noise, ideal, baseline, ngrps, n - 1) + IntegrationRamp(noise, Block(ideal, ngrps, n - 1), baseline)
  }

  /** `n` integrations of noise make `n*ngrps` frames of the detector's shape. */
  lemma {:induction false} RampsShaped(noise: Noise, ideal: Tensor, baseline: Tensor, ngrps: nat, n: nat, rows: nat, cols: nat)
    requires n * ngrps <= |ideal| && FramesShaped(ideal, rows, cols)
    requires RampShaped(noise, ngrps, rows, cols)
    ensures Shaped(Ramps(noise, ideal, baseline, ngrps, n), n * ngrps, rows, cols)
  {
    if n > 0 {
      assert (n - 1) * ngrps + ngrps == n * ngrps;
      RampsShaped(noise, ideal, baseline, ngrps, n - 1, rows, cols);
      var b := Block(ideal, ngrps, n - 1);
      assert Shaped(b, ngrps, rows, cols);
      assert Shaped(IntegrationRamp(noise, b, baseline), ngrps, rows, cols);
    }
  }

  /** Group `g` of integration `m` is group `g` of the noise model applied to
      that integration's ideal frames and the same baseline: each integration
      is computed from a fresh copy of one ramp and touches only its own
      frames. */
  lemma {:induction false} RampsBlock(noise: Noise, ideal: Tensor, baseline: Tensor, ngrps: nat, n: nat,
                                      rows: nat, cols: nat, m: nat, g: nat)
    requires n * ngrps <= |ideal| && FramesShaped(ideal, rows, cols)
    requires RampShaped(noise, ngrps, rows, cols)
    requires m < n && g < ngrps
    ensures m * ngrps + ngrps <= |ideal|
    ensures m * ngrps + g < n * ngrps
    ensures |Ramps(noise, ideal, baseline, ngrps, n)| == n * ngrps
    ensures Ramps(noise, ideal, baseline, ngrps, n)[m * ngrps + g]
         == IntegrationRamp(noise, Block(ideal, ngrps, m), baseline)[g]
  {
    FrameTimes.MulMonotone(m + 1, n, ngrps);
    assert (n - 1) * ngrps + ngrps == n * ngrps;
    RampsShaped(noise, ideal, baseline, ngrps, n, rows, cols);
    RampsShaped(noise, ideal, baseline, ngrps, n - 1, rows, cols);
    var b := Block(ideal, ngrps, n - 1);
    assert Shaped(b, ngrps, rows, cols);
    if m < n - 1 {
      RampsBlock(noise, ideal, baseline, ngrps, n - 1, rows, cols, m, g);
    }
  }

  /** Writing `block` right after a prefix `done` extends the prefix by it. */
  lemma Splice<T>(done: seq<T>, block: seq<T>, orig: seq<T>, p: nat)
    requires |done| == p && p + |block| <= |orig|
    ensures (done + orig[p..])[..p] + block + (done + orig[p..])[p + |block|..] == done + block + orig[p + |block|..]
  {
    var s := done + orig[p..];
    assert s[..p] == done;
    assert s[p + |block|..] == orig[p + |block|..];
  }

  /** The loop of `add_noise`: integration `n` replaces frames
      `[n*ngrps, (n+1)*ngrps)` of `tso` with its ramp. */
  method WriteRamps(tso: array3<real>, ideal: array3<real>, baseline: Tensor, noise: Noise, ngrps: nat, nints: nat)
    requires tso != ideal
    requires tso.Length0 == ideal.Length0 == nints * ngrps
    requires tso.Length1 == ideal.Length1 && tso.Length2 == ideal.Length2
    requires RampShaped(noise, ngrps, tso.Length1, tso.Length2)
    modifies tso
    ensures Contents(tso) == Ramps(noise, Contents(ideal), baseline, ngrps, nints)
  {
    ghost var orig := Contents(tso);
    var n := 0;
    while n < nints
      invariant 0 <= n <= nints
      invariant n * ngrps <= nints * ngrps
      invariant Contents(tso) == Ramps(noise, Contents(ideal), baseline, ngrps, n) + orig[n * ngrps..]
    {
      WriteRamp(tso, ideal, baseline, noise, ngrps, nints, n, orig);
      n := n + 1;
    }
    assert orig[nints * ngrps..] == [];
  }

  /** One pass of the loop of `add_noise`: integration `n` written after the
      ones before it. */
  method WriteRamp(tso: array3<real>, ideal: array3<real>, baseline: Tensor, noise: Noise, ngrps: nat, nints: nat,
                   n: nat, ghost orig: Tensor)
    requires tso != ideal
    requires tso.Length0 == ideal.Length0 == nints * ngrps == |orig|
    requires tso.Length1 == ideal.Length1 && tso.Length2 == ideal.Length2
    requires RampShaped(noise, ngrps, tso.Length1, tso.Length2)
    requires n < nints && n * ngrps <= nints * ngrps
    requires Contents(tso) == Ramps(noise, Contents(ideal), baseline, ngrps, n) + orig[n * ngrps..]
    modifies tso
    ensures (n + 1) * ngrps <= nints * ngrps
    ensures Contents(tso) == Ramps(noise, Contents(ideal), baseline, ngrps, n + 1) + orig[(n + 1) * ngrps..]
  {
    ghost var p := n * ngrps;
    FrameTimes.MulMonotone(n + 1, nints, ngrps);
    assert (n + 1) * ngrps == p + ngrps;
    var block := Block(Contents(ideal), ngrps, n);
    var ramp := IntegrationRamp(noise, block, baseline);
    ghost var done := Ramps(noise, Contents(ideal), baseline, ngrps, n);
    RampsShaped(noise, Contents(ideal), baseline, ngrps, n, tso.Length1, tso.Length2);
    assert Shaped(block, ngrps, tso.Length1, tso.Length2);
    WriteFrames(tso, n * ngrps, ramp);
    Splice(done, ramp, orig, p);
  }

  /** `add_noise`: the clamped dark signal gives the baseline ramp, and every
      integration of the ideal exposure is replaced by its ramp. */
  method AddNoise(tso: array3<real>, ideal: array3<real>, dark: seq<seq<real>>, darkCols: nat, noise: Noise,
                  ngrps: nat, nints: nat)
    requires tso != ideal
    requires tso.Length0 == ideal.Length0 == nints * ngrps
    requires tso.Length1 == ideal.Length1 && tso.Length2 == ideal.Length2
    requires Rectangular(dark, darkCols)
    requires RampShaped(noise, ngrps, tso.Length1, tso.Length2)
    modifies tso
    ensures Contents(tso) == Ramps(noise, Contents(ideal), Baseline(noise, dark, darkCols, ngrps), ngrps, nints)
  {
    var darksignal := DarkSignal(dark, darkCols);
    var ramp := noise.makeExposure(ngrps, darksignal);
    WriteRamps(tso, ideal, ramp, noise, ngrps, nints);
  }

  /** The reference pixels: the first four columns, the last four columns and
      the last four rows of a `rows` by `cols` frame. */
  predicate Border(r: int, c: int, rows: nat, cols: nat) {
    c < 4 || c >= cols - 4 || r >= rows - 4
  }

  /** Every border pixel set to `counts`, every other pixel as it was. */
  function Refpixed(t: Tensor, rows: nat, cols: nat, counts: real): (u: Tensor)
    requires FramesShaped(t, rows, cols)
    ensures Shaped(u, |t|, rows, cols)
    ensures forall k, r, c :: 0 <= k < |t| && 0 <= r < rows && 0 <= c < cols ==>
      u[k][r][c] == if Border(r, c, rows, cols) then counts else t[k][r][c]
  {
    seq(|t|, k requires 0 <= k < |t| =>
      seq(rows, r requires 0 <= r < rows =>
        seq(cols, c requires 0 <= c < cols => if Border(r, c, rows, cols) then counts else t[k][r][c])))
  }

  /** Painting the reference pixels a second time changes nothing. */
  lemma RefpixIdempotent(t: Tensor, rows: nat, cols: nat, counts: real)
    requires FramesShaped(t, rows, cols)
    ensures Refpixed(Refpixed(t, rows, cols, counts), rows, cols, counts) == Refpixed(t, rows, cols, counts)
  {
    var once := Refpixed(t, rows, cols, counts);
    Extensionality(Refpixed(once, rows, cols, counts), once, |t|, rows, cols);
  }

  /** Where numpy's `-4:` starts on an axis of `n`. */
  function FromEnd(n: nat): (s: nat)
    ensures s as int == if n >= 4 then n - 4 else 0
  {
    if n >= 4 then n - 4 else 0
  }

  /** `add_refpix(counts)`: columns `:4`, columns `-4:` and rows `-4:` of every
      frame set to `counts`. */
  method AddRefpix(a: array3<real>, counts: real)
    modifies a
    ensures Contents(a) == Refpixed(old(Contents(a)), a.Length1, a.Length2, counts)
  {
    ghost var before := Contents(a);
    FillBox(a, 0, a.Length1, 0, 4, counts);
    FillBox(a, 0, a.Length1, FromEnd(a.Length2), a.Length2, counts);
    FillBox(a, FromEnd(a.Length1), a.Length1, 0, a.Length2, counts);
    Extensionality(Contents(a), Refpixed(before, a.Length1, a.Length2, counts), a.Length0, a.Length1, a.Length2);
  }

  /** `t[:, :m, :]`: the first `m` rows of every frame (all of them when the
      frames have fewer). */
  function TopRows(t: Tensor, rows: nat, cols: nat, m: nat): (u: Tensor)
    requires FramesShaped(t, rows, cols)
    ensures Shaped(u, |t|, Min(m, rows), cols)
    ensures forall k, r, c :: 0 <= k < |t| && 0 <= r < Min(m, rows) && 0 <= c < cols ==> u[k][r][c] == t[k][r][c]
  {
    seq(|t|, k requires 0 <= k < |t| => t[k][..Min(m, rows)])
  }

  /** The trim, as a new array. */
  method Trim(a: array3<real>, m: nat) returns (b: array3<real>)
    ensures fresh(b)
    ensures b.Length0 == a.Length0 && b.Length1 == Min(m, a.Length1) && b.Length2 == a.Length2
    ensures Contents(b) == TopRows(Contents(a), a.Length1, a.Length2, m)
  {
    var rows := Min(m, a.Length1);
    b := new real[a.Length0, rows, a.Length2]((k, r, c) requires 0 <= k < a.Length0 && 0 <= r < rows && 0 <= c < a.Length2
                                                   reads a => a[k, r, c]);
    Extensionality(Contents(b), TopRows(Contents(a), a.Length1, a.Length2, m), a.Length0, rows, a.Length2);
  }

  /** Trimming at least four rows off the top after painting the reference
      pixels leaves the side columns painted and no reference row: a
      SUBSTRIP96 exposure cut from taller frames has no top reference rows. */
  lemma TrimmedBorder(t: Tensor, rows: nat, cols: nat, counts: real, m: nat)
    requires FramesShaped(t, rows, cols)
    requires m + 4 <= rows
    ensures forall k, r, c :: 0 <= k < |t| && 0 <= r < m && 0 <= c < cols ==>
      TopRows(Refpixed(t, rows, cols, counts), rows, cols, m)[k][r][c]
        == if c < 4 || c >= cols - 4 then counts else t[k][r][c]
  {
  }

  /** Keeping as many rows as the frames have keeps them whole. */
  lemma TopRowsAll(t: Tensor, rows: nat, cols: nat)
    requires FramesShaped(t, rows, cols)
    ensures TopRows(t, rows, cols, rows) == t
  {
    forall k | 0 <= k < |t| ensures TopRows(t, rows, cols, rows)[k] == t[k] {
      assert t[k][..rows] == t[k];
    }
  }
}
