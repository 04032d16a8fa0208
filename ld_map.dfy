/** The limb-darkening coefficient map of the first-generation simulator
    (`ld_coefficient_map`): every pixel of order 1 whose wavelength falls in a
    bin of the lookup table receives that bin's coefficients. The lookup table
    and the wavelength map come from files and are inputs here. */
module LdMap {
  import opened Wrappers
  import opened Numpy

  /** One entry of the lookup table: the bin's central wavelength and its
      coefficients, in the table's iteration order. */
  datatype LookupBin = LookupBin(wavelength: real, coeffs: seq<real>)

  /** Detector rows of the map for a subarray name (an exact match here). */
  function MapRows(subarray: string): (n: nat)
    ensures subarray == "SUBSTRIP256" ==> n == 256
    ensures subarray == "SUBSTRIP96" ==> n == 96
    ensures subarray != "SUBSTRIP256" && subarray != "SUBSTRIP96" ==> n == 2048
  {
    if subarray == "SUBSTRIP256" then 256 else if subarray == "SUBSTRIP96" then 96 else 2048
  }

  function Centres(lookup: seq<LookupBin>): (w: seq<real>)
    ensures |w| == |lookup|
    ensures forall k :: 0 <= k < |lookup| ==> w[k] == lookup[k].wavelength
  {
    seq(|lookup|, k requires 0 <= k < |lookup| => lookup[k].wavelength)
  }

  /** Half the mean spacing of the sorted bin centres. With fewer than two
      bins the mean of no spacings is NaN, which no wavelength compares with:
      `None`. */
  function HalfBinWidth(lookup: seq<LookupBin>): Option<real> {
    if |lookup| < 2 then None
    else
      var sorted := Sort(Centres(lookup));
      Some(HalfMeanGap(Sum(Diff(sorted)), |lookup|))
  }

  /** Half the mean gap of `n` values whose gaps add up to `total`. */
  function HalfMeanGap(total: real, n: nat): real
    requires n >= 2
  {
    total / (n - 1) as real / 2.0
  }

  /** The differences of a sequence add up to its last minus its first element. */
  lemma {:induction false} SumDiffTelescopes(s: seq<real>)
    requires |s| > 0
    ensures Sum(Diff(s)) == s[|s| - 1] - s[0]
  {
    if |s| > 1 {
      var s' := s[..|s| - 1];
      var d, d' := Diff(s), Diff(s');
      SumDiffTelescopes(s');
      assert d[..|d| - 1] == d';
      assert Sum(d) == Sum(d') + (s[|s| - 1] - s'[|s'| - 1]);
    }
  }

  /** The first and last element of a sorted permutation are the minimum and
      the maximum. */
  lemma SortedEnds(s: seq<real>)
    requires |s| > 0
    ensures Sort(s)[0] == MinOf(s) && Sort(s)[|s| - 1] == MaxOf(s)
  {
    SortedFirst(s, Sort(s));
    SortedLast(s, Sort(s));
  }

  /** The least element of a sorted permutation comes first. */
  lemma SortedFirst(s: seq<real>, t: seq<real>)
    requires |s| > 0 && NonDecreasing(t) && multiset(t) == multiset(s)
    ensures |t| == |s| && t[0] == MinOf(s)
  {
    assert |t| == |multiset(t)| == |s|;
    var lo :| 0 <= lo < |s| && s[lo] == MinOf(s);
    assert s[lo] in multiset(s);
    InSortedBounds(t, s[lo]);
    assert t[0] in multiset(t);
    InBounds(s, t[0]);
  }

  /** The greatest element of a sorted permutation comes last. */
  lemma SortedLast(s: seq<real>, t: seq<real>)
    requires |s| > 0 && NonDecreasing(t) && multiset(t) == multiset(s)
    ensures |t| == |s| && t[|t| - 1] == MaxOf(s)
  {
    assert |t| == |multiset(t)| == |s|;
    var hi :| 0 <= hi < |s| && s[hi] == MaxOf(s);
    assert s[hi] in multiset(s);
    InSortedBounds(t, s[hi]);
    assert t[|t| - 1] in multiset(t);
    InBounds(s, t[|t| - 1]);
  }

  /** A member of a sorted sequence lies between its ends. */
  lemma InSortedBounds(t: seq<real>, x: real)
    requires NonDecreasing(t) && x in multiset(t)
    ensures t[0] <= x <= t[|t| - 1]
  {
    var k :| 0 <= k < |t| && t[k] == x;
  }

  /** A member of a sequence lies between its minimum and maximum. */
  lemma InBounds(s: seq<real>, x: real)
    requires x in multiset(s)
    ensures MinOf(s) <= x <= MaxOf(s)
  {
    var k :| 0 <= k < |s| && s[k] == x;
  }

  /** The distance from the smallest to the largest value. */
  function Span(c: seq<real>): real
    requires |c| > 0
  {
    MaxOf(c) - MinOf(c)
  }

  /** The gaps of the sorted values add up to their span. */
  lemma SortedGapsSpan(c: seq<real>)
    requires |c| > 0
    ensures Sum(Diff(Sort(c))) == Span(c)
  {
    SumDiffTelescopes(Sort(c));
    SortedEnds(c);
  }

  /** The half bin width is half the span of the centres over the number of gaps. */
  lemma HalfBinWidthSpan(lookup: seq<LookupBin>)
    requires |lookup| >= 2
    ensures HalfBinWidth(lookup) == Some(HalfMeanGap(Span(Centres(lookup)), |lookup|))
  {
    SortedGapsSpan(Centres(lookup));
  }

  /** Bin `b` reaches a pixel of wavelength `wl`, and its coefficients can be
      written into a row of `ncoeffs` (they have that length, or one value to
      broadcast); otherwise numpy raises, and the loop skips the bin. */
  predicate Writes(b: LookupBin, wl: real, delta: real, ncoeffs: nat) {
    && b.wavelength - delta <= wl <= b.wavelength + delta
    && (|b.coeffs| == ncoeffs || |b.coeffs| == 1)
  }

  /** The row that a bin's coefficients fill (numpy broadcasting). */
  function Broadcast(coeffs: seq<real>, ncoeffs: nat): (row: seq<real>)
    requires |coeffs| == ncoeffs || |coeffs| == 1
    ensures |row| == ncoeffs
    ensures |coeffs| == ncoeffs ==> row == coeffs
    ensures |coeffs| != ncoeffs ==> forall c :: 0 <= c < ncoeffs ==> row[c] == coeffs[0]
  {
    if |coeffs| == ncoeffs then coeffs else Repeat(coeffs[0], ncoeffs)
  }

  /** The last bin of `lookup` that writes the pixel. */
  function LastWriter(lookup: seq<LookupBin>, wl: real, delta: real, ncoeffs: nat): (k: Option<nat>)
    ensures k.Some? ==> k.value < |lookup| && Writes(lookup[k.value], wl, delta, ncoeffs)
  {
    if lookup == [] then None
    else if Writes(lookup[|lookup| - 1], wl, delta, ncoeffs) then Some(|lookup| - 1)
    else LastWriter(lookup[..|lookup| - 1], wl, delta, ncoeffs)
  }

  /** The last writer writes the pixel and no later bin does; with no writer,
      no bin writes it at all. */
  lemma {:induction false} LastWriterSpec(lookup: seq<LookupBin>, wl: real, delta: real, ncoeffs: nat)
    ensures var k := LastWriter(lookup, wl, delta, ncoeffs);
      && (k.Some? ==> forall j :: k.value < j < |lookup| ==> !Writes(lookup[j], wl, delta, ncoeffs))
      && (k.None? ==> forall j :: 0 <= j < |lookup| ==> !Writes(lookup[j], wl, delta, ncoeffs))
  {
    if lookup != [] && !Writes(lookup[|lookup| - 1], wl, delta, ncoeffs) {
      var init := lookup[..|lookup| - 1];
      LastWriterSpec(init, wl, delta, ncoeffs);
      assert forall j :: 0 <= j < |init| ==> init[j] == lookup[j];
    }
  }

  /** Coefficient `c` of a pixel of wavelength `wl` in the map of order
      index `o` once the bins of `bins` have been placed with half width
      `delta`: only order index 0 is filled, and a pixel takes the row of the
      last bin that writes it (0 if none). */
  function Cell(bins: seq<LookupBin>, wl: real, delta: Option<real>, ncoeffs: nat, o: nat, c: nat): real
    requires c < ncoeffs
  {
    if o != 0 || delta.None? then 0.0
    else
      match LastWriter(bins, wl, delta.value, ncoeffs)
      case None => 0.0
      case Some(k) => Broadcast(bins[k].coeffs, ncoeffs)[c]
  }

  /** The map entry for pixel `p` once every bin of the table is placed. */
  function MapValue(lookup: seq<LookupBin>, waveList: seq<real>, ncoeffs: nat, o: nat, p: nat, c: nat): real
    requires p < |waveList| && c < ncoeffs
  {
    Cell(lookup, waveList[p], HalfBinWidth(lookup), ncoeffs, o, c)
  }

  /** Placing bin `k` after the bins before it overwrites exactly the order-1
      cells it writes. */
  lemma CellStep(lookup: seq<LookupBin>, k: nat, wl: real, delta: Option<real>, ncoeffs: nat, o: nat, c: nat)
    requires k < |lookup| && c < ncoeffs
    ensures Cell(lookup[..k + 1], wl, delta, ncoeffs, o, c)
      == if o == 0 && delta.Some? && Writes(lookup[k], wl, delta.value, ncoeffs) then Broadcast(lookup[k].coeffs, ncoeffs)[c]
         else Cell(lookup[..k], wl, delta, ncoeffs, o, c)
  {
    var bs := lookup[..k + 1];
    assert bs[..|bs| - 1] == lookup[..k];
    assert bs[|bs| - 1] == lookup[k];
  }

  /** `ld` holds the map once the bins of `bins` have been placed. */
  ghost predicate Placed(ld: array3<real>, bins: seq<LookupBin>, waveList: seq<real>, delta: Option<real>,
                         ncoeffs: nat)
    reads ld
  {
    && ld.Length0 == 3 && ld.Length1 == |waveList| && ld.Length2 == ncoeffs
    && forall o, p, c :: 0 <= o < 3 && 0 <= p < |waveList| && 0 <= c < ncoeffs ==>
         ld[o, p, c] == Cell(bins, waveList[p], delta, ncoeffs, o, c)
  }

  /** One pass of the bin loop: `ld[0, bin_pixels] = coeffs` for bin `k`,
      skipped when numpy would raise. */
  method PlaceBin(ld: array3<real>, lookup: seq<LookupBin>, k: nat, waveList: seq<real>, delta: Option<real>,
                  ncoeffs: nat)
    requires k < |lookup| && Placed(ld, lookup[..k], waveList, delta, ncoeffs)
    modifies ld
    ensures Placed(ld, lookup[..k + 1], waveList, delta, ncoeffs)
  {
    var b := lookup[k];
    forall o, p, c | 0 <= o < 3 && 0 <= p < |waveList| && 0 <= c < ncoeffs {
      CellStep(lookup, k, waveList[p], delta, ncoeffs, o, c);
    }
    if delta.Some? && (|b.coeffs| == ncoeffs || |b.coeffs| == 1) {
      var row := Broadcast(b.coeffs, ncoeffs);
      forall p, c | 0 <= p < |waveList| && b.wavelength - delta.value <= waveList[p] <= b.wavelength + delta.value
                    && 0 <= c < ncoeffs {
        ld[0, p, c] := row[c];
      }
    }
  }

  /** `ld_coefficient_map`: a zero map of shape (3, pixels, ncoeffs), then
      every bin writes its coefficients to the order-1 pixels it covers. */
  method LdCoefficientMap(lookup: seq<LookupBin>, subarray: string, waveList: seq<real>, ncoeffs: nat)
    returns (ld: array3<real>)
    requires |waveList| == MapRows(subarray) * 2048
    ensures fresh(ld)
    ensures ld.Length0 == 3 && ld.Length1 == MapRows(subarray) * 2048 && ld.Length2 == ncoeffs
    ensures forall o, p, c :: 0 <= o < 3 && 0 <= p < |waveList| && 0 <= c < ncoeffs ==>
      ld[o, p, c] == MapValue(lookup, waveList, ncoeffs, o, p, c)
  {
    ld := new real[3, |waveList|, ncoeffs]((o, p, c) => 0.0);
    var delta := HalfBinWidth(lookup);
    var k := 0;
    while k < |lookup|
      invariant 0 <= k <= |lookup|
      invariant fresh(ld) && Placed(ld, lookup[..k], waveList, delta, ncoeffs)
    {
      PlaceBin(ld, lookup, k, waveList, delta, ncoeffs);
      k := k + 1;
    }
    assert lookup[..k] == lookup;
  }
}
