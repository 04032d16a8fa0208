/** Stacks of detector frames. A numpy array of shape (frames, rows, cols) is an
    `array3<real>`; its value at one moment is a `Tensor`, a sequence of frames,
    each a sequence of rows. The whole-array numpy statements the simulator uses
    (`a += b`, `a[..., r0:r1, c0:c1] = v`, `a[k0:k1] = block`, `a.copy()`) are the
    methods below, each a simultaneous update (a `forall` statement). */
module Tensors {
  import opened Wrappers
  import opened Numpy

  type Frame = seq<seq<real>>
  type Tensor = seq<Frame>

  /** Every frame has `rows` rows of `cols` values. */
  predicate FramesShaped(t: Tensor, rows: nat, cols: nat) {
    forall k :: 0 <= k < |t| ==> |t[k]| == rows && forall r :: 0 <= r < rows ==> |t[k][r]| == cols
  }

  predicate Shaped(t: Tensor, n0: nat, n1: nat, n2: nat) {
    |t| == n0 && FramesShaped(t, n1, n2)
  }

  /** The value currently held by an array. */
  function Contents(a: array3<real>): (t: Tensor)
    reads a
    ensures Shaped(t, a.Length0, a.Length1, a.Length2)
    ensures forall k, r, c :: 0 <= k < a.Length0 && 0 <= r < a.Length1 && 0 <= c < a.Length2 ==>
      t[k][r][c] == a[k, r, c]
  {
    seq(a.Length0, k requires 0 <= k < a.Length0 reads a =>
      seq(a.Length1, r requires 0 <= r < a.Length1 reads a =>
        seq(a.Length2, c requires 0 <= c < a.Length2 reads a => a[k, r, c])))
  }

  /** Two tensors of one shape that agree everywhere are equal. */
  lemma Extensionality(s: Tensor, t: Tensor, n0: nat, n1: nat, n2: nat)
    requires Shaped(s, n0, n1, n2) && Shaped(t, n0, n1, n2)
    requires forall k, r, c :: 0 <= k < n0 && 0 <= r < n1 && 0 <= c < n2 ==> s[k][r][c] == t[k][r][c]
    ensures s == t
  {
    forall k | 0 <= k < n0 ensures s[k] == t[k] {
      forall r | 0 <= r < n1 ensures s[k][r] == t[k][r] {
        assert forall c :: 0 <= c < n2 ==> s[k][r][c] == t[k][r][c];
      }
    }
  }

  /** `np.zeros((n0, n1, n2))`. */
  function Zeros(n0: nat, n1: nat, n2: nat): (t: Tensor)
    ensures Shaped(t, n0, n1, n2)
    ensures forall k, r, c :: 0 <= k < n0 && 0 <= r < n1 && 0 <= c < n2 ==> t[k][r][c] == 0.0
  {
    seq(n0, _ => seq(n1, _ => seq(n2, _ => 0.0)))
  }

  /** Elementwise sum of two tensors of one shape. */
  function Add(x: Tensor, y: Tensor, n0: nat, n1: nat, n2: nat): (t: Tensor)
    requires Shaped(x, n0, n1, n2) && Shaped(y, n0, n1, n2)
    ensures Shaped(t, n0, n1, n2)
    ensures forall k, r, c :: 0 <= k < n0 && 0 <= r < n1 && 0 <= c < n2 ==>
      t[k][r][c] == x[k][r][c] + y[k][r][c]
  {
    seq(n0, k requires 0 <= k < n0 =>
      seq(n1, r requires 0 <= r < n1 =>
        seq(n2, c requires 0 <= c < n2 => x[k][r][c] + y[k][r][c])))
  }

  /** `v` on rows `[r0, r1)` and columns `[c0, c1)` of every frame, `t` elsewhere;
      the value after `a[:, r0:r1, c0:c1] = v`. */
  function FillRegion(t: Tensor, n0: nat, n1: nat, n2: nat, r0: nat, r1: nat, c0: nat, c1: nat, v: real): (u: Tensor)
    requires Shaped(t, n0, n1, n2)
    ensures Shaped(u, n0, n1, n2)
    ensures forall k, r, c :: 0 <= k < n0 && 0 <= r < n1 && 0 <= c < n2 ==>
      u[k][r][c] == if r0 <= r < r1 && c0 <= c < c1 then v else t[k][r][c]
  {
    seq(n0, k requires 0 <= k < n0 =>
      seq(n1, r requires 0 <= r < n1 =>
        seq(n2, c requires 0 <= c < n2 => if r0 <= r < r1 && c0 <= c < c1 then v else t[k][r][c])))
  }

  /** A new array holding `t` (`np.array(t)`, or `.copy()` of an array holding `t`). */
  method FromTensor(t: Tensor, n1: nat, n2: nat) returns (a: array3<real>)
    requires FramesShaped(t, n1, n2)
    ensures fresh(a)
    ensures a.Length0 == |t| && a.Length1 == n1 && a.Length2 == n2
    ensures Contents(a) == t
  {
    a := new real[|t|, n1, n2]((k, r, c) requires 0 <= k < |t| && 0 <= r < n1 && 0 <= c < n2 => t[k][r][c]);
    Extensionality(Contents(a), t, |t|, n1, n2);
  }

  /** `a += b`. */
  method AddInPlace(a: array3<real>, b: Tensor)
    requires Shaped(b, a.Length0, a.Length1, a.Length2)
    modifies a
    ensures Contents(a) == Add(old(Contents(a)), b, a.Length0, a.Length1, a.Length2)
  {
    ghost var before := Contents(a);
    forall k, r, c | 0 <= k < a.Length0 && 0 <= r < a.Length1 && 0 <= c < a.Length2 {
      a[k, r, c] := a[k, r, c] + b[k][r][c];
    }
    Extensionality(Contents(a), Add(before, b, a.Length0, a.Length1, a.Length2), a.Length0, a.Length1, a.Length2);
  }

  /** `a[:, r0:r1, c0:c1] = v`, with the bounds already clipped to the array. */
  method FillBox(a: array3<real>, r0: nat, r1: nat, c0: nat, c1: nat, v: real)
    modifies a
    ensures Contents(a) == FillRegion(old(Contents(a)), a.Length0, a.Length1, a.Length2, r0, r1, c0, c1, v)
  {
    ghost var before := Contents(a);
    forall k, r, c | 0 <= k < a.Length0 && r0 <= r < r1 && r < a.Length1 && c0 <= c < c1 && c < a.Length2 {
      a[k, r, c] := v;
    }
    Extensionality(Contents(a), FillRegion(before, a.Length0, a.Length1, a.Length2, r0, r1, c0, c1, v),
      a.Length0, a.Length1, a.Length2);
  }

  /** `t[:start] + block + t[start+len(block):]` of frames. */
  lemma SpliceShaped(t: Tensor, block: Tensor, start: nat, n0: nat, n1: nat, n2: nat)
    requires Shaped(t, n0, n1, n2) && FramesShaped(block, n1, n2) && start + |block| <= n0
    ensures Shaped(t[..start] + block + t[start + |block|..], n0, n1, n2)
    ensures forall k :: 0 <= k < n0 ==>
      (t[..start] + block + t[start + |block|..])[k] == if start <= k < start + |block| then block[k - start] else t[k]
  {
    var u := t[..start] + block + t[start + |block|..];
    forall k | 0 <= k < n0 ensures u[k] == if start <= k < start + |block| then block[k - start] else t[k] {
      if k < start { assert u[k] == t[..start][k]; }
      else if k < start + |block| { assert u[k] == block[k - start]; }
      else { assert u[k] == t[start + |block|..][k - start - |block|]; }
    }
  }

  /** `a[start:start+len(block)] = block`. */
  method WriteFrames(a: array3<real>, start: nat, block: Tensor)
    requires start + |block| <= a.Length0
    requires FramesShaped(block, a.Length1, a.Length2)
    modifies a
    ensures Contents(a) == old(Contents(a))[..start] + block + old(Contents(a))[start + |block|..]
  {
    ghost var before := Contents(a);
    forall k, r, c | start <= k < start + |block| && 0 <= r < a.Length1 && 0 <= c < a.Length2 {
      a[k, r, c] := block[k - start][r][c];
    }
    SpliceShaped(before, block, start, a.Length0, a.Length1, a.Length2);
    Extensionality(Contents(a), before[..start] + block + before[start + |block|..],
      a.Length0, a.Length1, a.Length2);
  }

  /** The loop over the orders: the cubes of the orders up to the first one
      that fails, and how the run ends. */
  function RunOrders(rs: seq<Result<Tensor>>): (r: (seq<Tensor>, Outcome))
    ensures |r.0| <= |rs|
    ensures forall i :: 0 <= i < |r.0| ==> rs[i] == Ok(r.0[i])
    ensures r.1.Pass? <==> |r.0| == |rs|
    ensures r.1.Fail? ==> rs[|r.0|] == Err(r.1.error)
  {
    if rs == [] then ([], Pass)
    else
      match rs[0]
      case Err(e) => ([], Fail(e))
      case Ok(t) =>
        var rest := RunOrders(rs[1..]);
        ([t] + rest.0, rest.1)
  }

  /** Cubes agreeing with every order of a prefix and failing at the next,
      or covering all orders, are what `RunOrders` yields. */
  lemma RunOrdersDetermined(rs: seq<Result<Tensor>>, done: seq<Tensor>, out: Outcome)
    requires |done| <= |rs|
    requires forall j :: 0 <= j < |done| ==> rs[j] == Ok(done[j])
    requires out.Pass? <==> |done| == |rs|
    requires out.Fail? ==> rs[|done|] == Err(out.error)
    ensures RunOrders(rs) == (done, out)
  {
    var r := RunOrders(rs);
    assert r.0 == done;
  }

  /** The total after adding the cubes one after another. */
  function SumCubes(base: Tensor, cubes: seq<Tensor>, n0: nat, n1: nat, n2: nat): (t: Tensor)
    requires Shaped(base, n0, n1, n2)
    requires forall i :: 0 <= i < |cubes| ==> Shaped(cubes[i], n0, n1, n2)
    ensures Shaped(t, n0, n1, n2)
  {
    if cubes == [] then base
    else Add(SumCubes(base, cubes[..|cubes| - 1], n0, n1, n2), cubes[|cubes| - 1], n0, n1, n2)
  }

  /** One more cube adds it to the total. */
  lemma SumCubesSnoc(base: Tensor, cubes: seq<Tensor>, c: Tensor, n0: nat, n1: nat, n2: nat)
    requires Shaped(base, n0, n1, n2) && Shaped(c, n0, n1, n2)
    requires forall i :: 0 <= i < |cubes| ==> Shaped(cubes[i], n0, n1, n2)
    ensures forall i :: 0 <= i < |cubes + [c]| ==> Shaped((cubes + [c])[i], n0, n1, n2)
    ensures SumCubes(base, cubes + [c], n0, n1, n2) == Add(SumCubes(base, cubes, n0, n1, n2), c, n0, n1, n2)
  {
    assert forall i :: 0 <= i < |cubes| ==> (cubes + [c])[i] == cubes[i];
    assert (cubes + [c])[..|cubes|] == cubes;
  }

  /** Adding two lists of cubes in turn is adding their concatenation; so a
      second run with the same cubes adds them a second time. */
  lemma {:induction false} SumCubesConcat(base: Tensor, xs: seq<Tensor>, ys: seq<Tensor>, n0: nat, n1: nat, n2: nat)
    requires Shaped(base, n0, n1, n2)
    requires forall i :: 0 <= i < |xs| ==> Shaped(xs[i], n0, n1, n2)
    requires forall i :: 0 <= i < |ys| ==> Shaped(ys[i], n0, n1, n2)
    ensures forall i :: 0 <= i < |xs + ys| ==> Shaped((xs + ys)[i], n0, n1, n2)
    ensures SumCubes(SumCubes(base, xs, n0, n1, n2), ys, n0, n1, n2) == SumCubes(base, xs + ys, n0, n1, n2)
    decreases |ys|
  {
    assert forall i :: 0 <= i < |xs + ys| ==> (xs + ys)[i] == if i < |xs| then xs[i] else ys[i - |xs|];
    if ys == [] {
      assert xs + ys == xs;
    } else {
      var init := ys[..|ys| - 1];
      SumCubesConcat(base, xs, init, n0, n1, n2);
      assert (xs + ys)[..|xs + ys| - 1] == xs + init;
    }
  }

  /** Every entry of the total is the base entry plus that entry of every cube. */
  lemma {:induction false} SumCubesPointwise(base: Tensor, cubes: seq<Tensor>, n0: nat, n1: nat, n2: nat,
                                             k: nat, r: nat, c: nat)
    requires Shaped(base, n0, n1, n2)
    requires forall i :: 0 <= i < |cubes| ==> Shaped(cubes[i], n0, n1, n2)
    requires k < n0 && r < n1 && c < n2
    ensures SumCubes(base, cubes, n0, n1, n2)[k][r][c]
      == base[k][r][c] + Sum(seq(|cubes|, i requires 0 <= i < |cubes| => cubes[i][k][r][c]))
    decreases |cubes|
  {
    var col := seq(|cubes|, i requires 0 <= i < |cubes| => cubes[i][k][r][c]);
    if cubes != [] {
      var init := cubes[..|cubes| - 1];
      SumCubesPointwise(base, init, n0, n1, n2, k, r, c);
      assert col[..|col| - 1] == seq(|init|, i requires 0 <= i < |init| => init[i][k][r][c]);
    }
  }
}
