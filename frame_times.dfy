/** The exposure time axis of the first-generation simulator (`get_frame_times`):
    `nints` integrations of `nresets + ngrps` frames each, one frame time apart,
    with the reset frames of every integration dropped. */
module FrameTimes {
  import opened Wrappers

  /** Seconds per frame of each SOSS subarray readout. */
  const FRAME_TIMES: map<string, real> := map["SUBSTRIP96" := 2.213, "SUBSTRIP256" := 5.491, "FULL" := 10.737]

  /** The frame time of `subarray`; a name outside the table is read as SUBSTRIP256. */
  function FrameTimeFor(subarray: string): (ft: real)
    ensures ft > 0.0
    ensures subarray in FRAME_TIMES ==> ft == FRAME_TIMES[subarray]
    ensures subarray !in FRAME_TIMES ==> ft == 5.491
  {
    if subarray in FRAME_TIMES then FRAME_TIMES[subarray] else FRAME_TIMES["SUBSTRIP256"]
  }

  /** Closed form of the time of group `g` of integration `i`: it is frame
      `i * (nresets + ngrps) + nresets + g` of the exposure, counted from `t0`. */
  function FrameTime(t0: real, ft: real, nresets: nat, ngrps: nat, i: nat, g: nat): real {
    t0 + ((i * (nresets + ngrps) + nresets + g) as real) * ft
  }

  /** The time of the first frame (a reset frame) of integration `n`. */
  function IntegrationStart(t0: real, ft: real, nresets: nat, ngrps: nat, n: nat): real {
    t0 + ((n * (nresets + ngrps)) as real) * ft
  }

  lemma Distribute(a: real, b: real, ft: real)
    ensures a * ft + b * ft == (a + b) * ft
  {
  }

  /** Group `g` of integration `n` is read `nresets + g` frames after the integration starts. */
  lemma FrameOfIntegration(t0: real, ft: real, nresets: nat, ngrps: nat, n: nat, g: nat)
    ensures IntegrationStart(t0, ft, nresets, ngrps, n) + ((nresets + g) as real) * ft
         == FrameTime(t0, ft, nresets, ngrps, n, g)
  {
    Distribute((n * (nresets + ngrps)) as real, (nresets + g) as real, ft);
  }

  /** One frame time after the last frame of integration `n` starts integration `n + 1`. */
  lemma NextIntegration(t0: real, ft: real, nresets: nat, ngrps: nat, n: nat)
    requires nresets + ngrps > 0
    ensures IntegrationStart(t0, ft, nresets, ngrps, n) + ((nresets + ngrps - 1) as real) * ft + ft
         == IntegrationStart(t0, ft, nresets, ngrps, n + 1)
  {
    var w := nresets + ngrps;
    assert (n + 1) * w == n * w + w;
    Distribute((n * w) as real, (w - 1) as real, ft);
    Distribute((n * w + w - 1) as real, 1.0, ft);
  }

  /** Position of group `g` of integration `i` among the `n * ngrps` kept frames. */
  function FlatIndex(i: nat, g: nat, ngrps: nat, n: nat): (k: nat)
    requires i < n && g < ngrps
    ensures k < n * ngrps
  {
    assert (i + 1) * ngrps <= n * ngrps;
    i * ngrps + g
  }

  /** Appending the groups of integration `n`, which starts at `t`, keeps the
      axis in closed form. */
  lemma AppendIntegration(axis: seq<real>, kept: seq<real>, t0: real, ft: real, nresets: nat, ngrps: nat, n: nat)
    requires |axis| == n * ngrps && |kept| == ngrps
    requires forall i, g :: 0 <= i < n && 0 <= g < ngrps ==>
      axis[FlatIndex(i, g, ngrps, n)] == FrameTime(t0, ft, nresets, ngrps, i, g)
    requires forall g :: 0 <= g < ngrps ==> kept[g] == FrameTime(t0, ft, nresets, ngrps, n, g)
    ensures |axis + kept| == (n + 1) * ngrps
    ensures forall i, g :: 0 <= i < n + 1 && 0 <= g < ngrps ==>
      (axis + kept)[FlatIndex(i, g, ngrps, n + 1)] == FrameTime(t0, ft, nresets, ngrps, i, g)
  {
    forall i, g | 0 <= i < n + 1 && 0 <= g < ngrps
      ensures (axis + kept)[FlatIndex(i, g, ngrps, n + 1)] == FrameTime(t0, ft, nresets, ngrps, i, g)
    {
      if i < n {
        assert FlatIndex(i, g, ngrps, n + 1) == FlatIndex(i, g, ngrps, n);
      } else {
        assert FlatIndex(i, g, ngrps, n + 1) - |axis| == g;
      }
    }
  }

  /** The time axis. An exposure with no integrations has nothing to
      concatenate (`ValueError`); an integration with no frames has no last
      frame to continue from (`IndexError`). */
  method GetFrameTimes(subarray: string, ngrps: nat, nints: nat, t0: real, nresets: nat) returns (r: Result<seq<real>>)
    ensures r.Err? <==> nints == 0 || nresets + ngrps == 0
    ensures r.Err? ==> r.error == if nints > 0 then IndexError else ValueError
    ensures r.Ok? ==> |r.value| == nints * ngrps
    ensures r.Ok? ==> forall i, g :: 0 <= i < nints && 0 <= g < ngrps ==>
      r.value[FlatIndex(i, g, ngrps, nints)] == FrameTime(t0, FrameTimeFor(subarray), nresets, ngrps, i, g)
  {
    var ft := FrameTimeFor(subarray);
    var axis: seq<real> := [];
    var t := t0;
    var n := 0;
    while n < nints
      invariant 0 <= n <= nints
      invariant n > 0 ==> nresets + ngrps > 0
      invariant |axis| == n * ngrps
      invariant t == IntegrationStart(t0, ft, nresets, ngrps, n)
      invariant forall i, g :: 0 <= i < n && 0 <= g < ngrps ==>
        axis[FlatIndex(i, g, ngrps, n)] == FrameTime(t0, ft, nresets, ngrps, i, g)
    {
      var times := seq(nresets + ngrps, j requires 0 <= j < nresets + ngrps => t + (j as real) * ft);
      assert forall j :: 0 <= j < |times| ==> times[j] == t + (j as real) * ft;
      if |times| == 0 {
        return Err(IndexError);
      }
      var kept := times[nresets..];
      forall g | 0 <= g < ngrps ensures kept[g] == FrameTime(t0, ft, nresets, ngrps, n, g) {
        FrameOfIntegration(t0, ft, nresets, ngrps, n, g);
      }
      AppendIntegration(axis, kept, t0, ft, nresets, ngrps, n);
      t := times[|times| - 1] + ft;
      NextIntegration(t0, ft, nresets, ngrps, n);
      axis := axis + kept;
      n := n + 1;
    }
    if nints == 0 {
      return Err(ValueError);
    }
    return Ok(axis);
  }

  /** Consecutive groups of one integration are one frame time apart. */
  lemma GroupGap(t0: real, ft: real, nresets: nat, ngrps: nat, i: nat, g: nat)
    requires g + 1 < ngrps
    ensures FrameTime(t0, ft, nresets, ngrps, i, g + 1) - FrameTime(t0, ft, nresets, ngrps, i, g) == ft
  {
  }

  /** From the last group of one integration to the first group of the next
      lie the dropped reset frames: the gap is `nresets + 1` frame times. */
  lemma {:induction false} IntegrationGap(t0: real, ft: real, nresets: nat, ngrps: nat, i: nat)
    requires ngrps > 0
    ensures FrameTime(t0, ft, nresets, ngrps, i + 1, 0) - FrameTime(t0, ft, nresets, ngrps, i, ngrps - 1)
      == ((nresets + 1) as real) * ft
  {
    assert (i + 1) * (nresets + ngrps) == i * (nresets + ngrps) + nresets + ngrps;
  }

  lemma MulMonotone(a: nat, b: nat, d: nat)
    requires a <= b
    ensures a * d <= b * d
  {
  }

  lemma DivModUnique(x: nat, d: nat, q: nat, m: nat)
    requires 0 <= m < d && x == q * d + m
    ensures x / d == q && x % d == m
  {
    var q', m' := x / d, x % d;
    if q' < q {
      MulMonotone(q' + 1, q, d);
    } else if q' > q {
      MulMonotone(q + 1, q', d);
    }
  }

  /** Sample `k` of the axis is group `k % ngrps` of integration `k / ngrps`.
      Consecutive samples are one frame time apart, except where sample `k + 1`
      opens a new integration; there they are `nresets + 1` frame times apart. */
  lemma AxisStep(t0: real, ft: real, nresets: nat, ngrps: nat, k: nat)
    requires ngrps > 0
    ensures FrameTime(t0, ft, nresets, ngrps, (k + 1) / ngrps, (k + 1) % ngrps)
          - FrameTime(t0, ft, nresets, ngrps, k / ngrps, k % ngrps)
         == if (k + 1) % ngrps == 0 then ((nresets + 1) as real) * ft else ft
  {
    var q, m := k / ngrps, k % ngrps;
    if m + 1 < ngrps {
      DivModUnique(k + 1, ngrps, q, m + 1);
      GroupGap(t0, ft, nresets, ngrps, q, m);
    } else {
      DivModUnique(k + 1, ngrps, q + 1, 0);
      IntegrationGap(t0, ft, nresets, ngrps, q);
    }
  }
}
