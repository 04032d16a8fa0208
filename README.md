# AWESim_SOSS time-series simulator: a Dafny model of its bookkeeping

AWESim_SOSS simulates time-series observations (TSOs) made with the
Single-Object Slitless Spectroscopy (SOSS) mode of JWST/NIRISS. A star's
spectrum, optionally transited by a planet, is turned into a stack of
detector frames for spectral orders 1 and 2. The frames span
(integrations × groups, rows, columns). The repository holds two
generations of the simulator:

- The first generation, `AWESim_SOSS/sim2D/awesim.py`, builds a light curve
  at every pixel.
  - `get_frame_times` lays out the exposure's time axis.
  - `lambda_lightcurve` decides, per pixel, between the noise floor and the
    scaled stellar signal.
  - `rebin_spec` rebins a spectrum while conserving its flux.
  - `ld_coefficient_map` spreads a lookup table of limb-darkening
    coefficients over the pixels.
  - The `TSO` class accumulates the cube of every requested order into its
    exposure.
- The second generation, `awesimsoss/awesim.py`, builds each order from the
  light curves of its 2048 columns.
  - Its `TSO` class validates the star and normalises the orders.
  - `run_simulation` does the following, in order:
    1. resets the four exposures;
    2. prepares the transit model (time units, `t0`, limb-darkening law);
    3. decides whether the limb-darkening coefficients are kept, replaced or
       regenerated;
    4. scales each order's frames by the tiled frame times;
    5. sums the orders;
    6. passes the sum through the dark-ramp noise model (`add_noise`) and the
       reference-pixel border (`add_refpix`);
    7. trims the SUBSTRIP96 readout.
  - The module-level `subarray` function looks up the detector geometry of a
    readout.

The model is written over exact reals. Numpy's vectorised in-place
operations become `forall` statements on Dafny arrays. Python loops become
`while` loops with invariants. Objects whose fields change become classes
with `modifies` clauses. The optics and noise collaborators become function
parameters of the model. These are batman's transit curve, `psf_position`,
`psf_lightcurve`, `make_frame`, the PSF cubes, the spectral response and
the `gd.*` ramp generators. Each of them carries only the shape contract
the simulator relies on.

Modules (one file each): `Wrappers` (results and Python exception kinds),
`Numpy` (the numpy functions used: `interp`, `diff`, `sort`,
`searchsorted`, sums), `Tensors` (3-D arrays and their contents),
`PyStrings`, `FrameTimes`, `Lightcurve`, `Rebin`, `LdMap`, `Orders`,
`Sim2dTso`, `StarCheck`, `Transit`, `Detector`, `Subarray`, `AwesimTso`.

Behaviours of the code that the model keeps as written:

- Samples below the floor get the floor added to them (`flux[flux<floor] +=
  floor`), so such a sample ends between the floor and twice the floor.
- The first-generation `run_simulation` adds every run's cubes to
  `self.tso`, so repeated runs accumulate. The second generation zeroes its
  exposures at the start of every run.
- `get_frame_times` accepts an unknown subarray name and uses the
  SUBSTRIP256 frame time for it.
- A failing pixel or order stops the run with its error. Only
  `ld_coefficient_map` skips the bins numpy rejects.
- The regeneration branch of the `ld_coeffs` setter refers to an undefined
  name and raises `NameError`, so the second generation only ever takes
  coefficients from a supplied array.
- A second-generation run over a single order (orders `[1]` or `[2]`, and
  every F277W run) leaves the other order's exposure as the four-dimensional
  zeros of the reset beside its own three-dimensional cube. `add_noise`
  cannot stack that pair, and the run stops there with a `ValueError`.
- A first-generation planet given without `params` (the default `''`)
  makes every pixel on the trace fail with `AttributeError` when it sets
  `params.limb_dark`.

## Model

| member | source | states |
|---|---|---|
| FrameTimes.FrameTimeFor | AWESim_SOSS/sim2D/awesim.py:766-771 | the frame time is positive; it is the table's value for SUBSTRIP96, SUBSTRIP256 and FULL, and the SUBSTRIP256 value 5.491 for any other name |
| FrameTimes.GetFrameTimes | AWESim_SOSS/sim2D/awesim.py:743-783 | fails exactly when there are no integrations (`ValueError` from concatenating nothing) or no frame per integration (`IndexError` on `times[-1]`); otherwise returns exactly `nints*ngrps` times, group `g` of integration `i` at `t0 + (i*(nresets+ngrps) + nresets + g)*ft` |
| FrameTimes.GroupGap | AWESim_SOSS/sim2D/awesim.py:777 | consecutive groups of one integration are one frame time apart |
| FrameTimes.IntegrationGap | AWESim_SOSS/sim2D/awesim.py:776-779 | the last group of an integration and the first group of the next are `(nresets+1)` frame times apart |
| FrameTimes.AxisStep | AWESim_SOSS/sim2D/awesim.py:774-781 | along the flattened axis each step is `ft`, or `(nresets+1)*ft` where a new integration begins |
| Lightcurve.Lightcurve | AWESim_SOSS/sim2D/awesim.py:648-714 | a pixel beyond `trace_radius+extend` never fails; a failure is `AttributeError` exactly for a planet without `params` on a usable star, and `ValueError` otherwise |
| Lightcurve.LambdaLightcurve | AWESim_SOSS/sim2D/awesim.py:604-714 | the in-place computation (repeat, transit product, response and PSF scalings, masked floor bump) returns exactly the light curve the branch structure defines, including the `AttributeError` of a planet without `params` and the error when the planet spectrum cannot be interpolated |
| Lightcurve.PlanetWithoutParams | AWESim_SOSS/sim2D/awesim.py:680-685 | with a planet and the default `params=''`, every pixel in the signal branch fails with `AttributeError` |
| Lightcurve.LightcurveLength | AWESim_SOSS/sim2D/awesim.py:648-714 | a light curve has one sample per time stamp |
| Lightcurve.BackgroundIsFloor | AWESim_SOSS/sim2D/awesim.py:651-657 | a pixel beyond `trace_radius+extend`, bluer than the star, or outside the F277W band [2.36989, 3.22972] gets the constant floor at every time stamp |
| Lightcurve.SignalBranch | AWESim_SOSS/sim2D/awesim.py:665-706 | in the signal branch a sample below the floor has the floor added to it, a sample at or above the floor is unchanged, and the length is `len(time)` |
| Lightcurve.FloorBumpBounds | AWESim_SOSS/sim2D/awesim.py:706 | on non-negative signals the bumped curve is never below the floor, and equals it only where the signal was 0 or exactly the floor |
| Lightcurve.NoPlanetSignal | AWESim_SOSS/sim2D/awesim.py:665-702 | without a planet every signal sample is the same product of base flux, response and PSF value |
| Lightcurve.NoPlanetConstant | AWESim_SOSS/sim2D/awesim.py:678-706 | without a planet the light curve takes the same value at every time stamp |
| Lightcurve.BeyondStarIsFloor | AWESim_SOSS/sim2D/awesim.py:665-706 | a wavelength redder than the star's range interpolates to 0 and yields exactly the floor at every sample |
| Rebin.Rebin | AWESim_SOSS/sim2D/awesim.py:138-189 | a rebinned spectrum lies on the new grid, which has at least two points |
| Rebin.Oversample | AWESim_SOSS/sim2D/awesim.py:156-164 | fails with `ValueError` exactly on an empty or ragged spectrum; the fine grid has `(nlam-1)*oversamp+1` samples and keeps the errors exactly when they can be interpolated |
| Rebin.RawEdges | AWESim_SOSS/sim2D/awesim.py:167-168 | `len(wavnew)+1` edges: midpoints inside, and the ends pushed out by the maximum spacing |
| Rebin.BinEdges | AWESim_SOSS/sim2D/awesim.py:167-171 | fails exactly when the new grid has fewer than two points; otherwise the edges are sorted and a permutation of the raw edges |
| Rebin.RawEdgesAround | AWESim_SOSS/sim2D/awesim.py:168 | on an increasing grid every new wavelength lies strictly between its two raw edges |
| Rebin.IncreasingGridEdges | AWESim_SOSS/sim2D/awesim.py:167-171 | on an increasing grid the sort changes nothing and each point lies strictly inside its own bin |
| Rebin.BinsContiguous | AWESim_SOSS/sim2D/awesim.py:175 | the `searchsorted` start of a bin never exceeds that of the next bin, so the index ranges are contiguous and disjoint |
| Rebin.BinPrefixSum | AWESim_SOSS/sim2D/awesim.py:175-178 | the first `k` bin sums add up to the fine samples between the first edge's index and the `k`-th edge's index |
| Rebin.BinSumsConserve | AWESim_SOSS/sim2D/awesim.py:171-182 | the bin sums add up to the fine samples between the first and the last edge index |
| Rebin.SumBins | AWESim_SOSS/sim2D/awesim.py:173-182 | the loop fills `specnew` with each bin's range sum, and `errnew` with the error range sums or zeros when there are no errors |
| Rebin.RebinSpec | AWESim_SOSS/sim2D/awesim.py:138-189 | the method returns the rebinned spectrum the specification functions define, errors included |
| Rebin.RebinOutcome | AWESim_SOSS/sim2D/awesim.py:156-189 | fails with `ValueError` exactly on an empty or ragged spectrum or a grid of fewer than two points; otherwise returns the new grid with one flux and one error per point |
| Rebin.RebinConservesFlux | AWESim_SOSS/sim2D/awesim.py:156-189 | the rebinned flux sums to the oversampled flux between the first and the last edge |
| Rebin.RebinWithoutErrors | AWESim_SOSS/sim2D/awesim.py:161-182 | without usable errors every error bin stays 0 |
| LdMap.MapRows | AWESim_SOSS/sim2D/awesim.py:396 | exact names SUBSTRIP256 and SUBSTRIP96 give 256 and 96 rows, anything else 2048 |
| LdMap.HalfBinWidthSpan | AWESim_SOSS/sim2D/awesim.py:412 | the half bin width is half the span of the bin centres divided by one less than their count |
| LdMap.SortedEnds | AWESim_SOSS/sim2D/awesim.py:412 | the sorted centres start at their minimum and end at their maximum |
| LdMap.LastWriterSpec | AWESim_SOSS/sim2D/awesim.py:415-424 | the bin a pixel ends with is the last one that reaches it; with none, no bin reaches it |
| LdMap.CellStep | AWESim_SOSS/sim2D/awesim.py:415-424 | placing one more bin overwrites exactly the order-1 cells it reaches and leaves the rest |
| LdMap.PlaceBin | AWESim_SOSS/sim2D/awesim.py:417-424 | one pass of the bin loop writes the bin's coefficients (broadcast) into the pixels its window reaches |
| LdMap.LdCoefficientMap | AWESim_SOSS/sim2D/awesim.py:396-424 | a fresh (3, rows*2048, ncoeffs) map of zeros except order 1, where each pixel holds the coefficients of the last bin whose window reaches its wavelength |
| Orders.NormaliseOrdersSpec | awesimsoss/awesim.py:127-131 | `TypeError` exactly when some order is outside {1, 2}; otherwise the result holds exactly the orders given, without repeats, ascending |
| Orders.SingleOrder | AWESim_SOSS/sim2D/awesim.py:889-890 | a bare order becomes a one-element list |
| Orders.NormaliseIdempotent | AWESim_SOSS/sim2D/awesim.py:893 | normalising an already normalised list changes nothing |
| Orders.OlderFilterRuleSpec | AWESim_SOSS/sim2D/awesim.py:896-898 | a filter naming F277W in any letter case forces orders [1] and records F277W; any other filter leaves the orders and the recorded filter as they were |
| Orders.OlderFilterRuleCaseInsensitive | AWESim_SOSS/sim2D/awesim.py:896 | "f277w" is caught; "CLEAR" is not |
| Orders.NewerFilterRule | awesimsoss/awesim.py:134-135 | only the exact name F277W restricts the orders to [1] |
| Orders.FilterRulesDiffer | awesimsoss/awesim.py:134 | on "f277w" the two generations disagree: the older restricts to order 1, the newer keeps both |
| Sim2dTso.Rows | AWESim_SOSS/sim2D/awesim.py:835 | a name containing "256" reads 256 rows; otherwise one containing "96" reads 96; any other reads 2048 |
| Sim2dTso.RowsOfStrip256 | AWESim_SOSS/sim2D/awesim.py:835 | SUBSTRIP256 reads 256 rows |
| Sim2dTso.RowsOfStrip96 | AWESim_SOSS/sim2D/awesim.py:835 | SUBSTRIP96 reads 96 rows (it has no "256" in it) |
| Sim2dTso.RowsOfFull | AWESim_SOSS/sim2D/awesim.py:835 | FULL reads 2048 rows |
| Sim2dTso.Curves | AWESim_SOSS/sim2D/awesim.py:941 | when the map succeeds, every pixel's light curve is in place and in order |
| Sim2dTso.CurvesFirstError | AWESim_SOSS/sim2D/awesim.py:941 | a failed map reports the error of the first failing pixel, every earlier pixel having succeeded |
| Sim2dTso.Frames | AWESim_SOSS/sim2D/awesim.py:948 | the curves of `nrows*ncols` pixels become a (frames, rows, columns) cube |
| Sim2dTso.FramesPlacePixels | AWESim_SOSS/sim2D/awesim.py:948 | the light curve of flattened pixel `p` lands at row `p // ncols`, column `p % ncols` of every frame |
| Sim2dTso.OrderCube | AWESim_SOSS/sim2D/awesim.py:900-948 | an order that succeeds yields a cube of (frames, rows, columns) |
| Sim2dTso.OrderCubeSucceeds | AWESim_SOSS/sim2D/awesim.py:900-948 | with a full coefficient array, maps covering the detector and no planet, every order yields a cube |
| Sim2dTso.OlderFilterRuleStable | AWESim_SOSS/sim2D/awesim.py:896-898 | applying the filter rule again with the filter it recorded gives the same orders and filter |
| Sim2dTso.KeptStep | AWESim_SOSS/sim2D/awesim.py:956 | over a list without repeats, each order's own cube replaces that order's cube, and the other order's cube is left alone |
| Sim2dTso.Tso.constructor | AWESim_SOSS/sim2D/awesim.py:833-875 | rows from the subarray name, one reset, filter CLEAR, the `''` limb-darkening profile read as quadratic, and three zero cubes of (frames, rows, 2048) |
| Sim2dTso.Tso.AddOrder | AWESim_SOSS/sim2D/awesim.py:952-956 | the total gains the order's cube elementwise, the order's own cube is replaced by it, and the other order's cube is untouched |
| Sim2dTso.Tso.AddOrders | AWESim_SOSS/sim2D/awesim.py:904-956 | the total is the previous total plus the cubes of the orders that ran, up to the first failure, and each order that ran holds its own cube |
| Sim2dTso.Tso.RunSimulation | AWESim_SOSS/sim2D/awesim.py:877-956 | a bad order raises `TypeError` and changes nothing; otherwise the filter is assigned only by the F277W rule, the coefficients are zeroed when there is no planet, and the orders accumulate on top of the previous exposure |
| Sim2dTso.NewTso | AWESim_SOSS/sim2D/awesim.py:790-875 | fails with `ValueError` exactly when there are no integrations; otherwise a fresh object with filter CLEAR whose time axis is the `get_frame_times` axis with one reset, holding the given star, planet, coefficients, trace radius and extension, the profile with `''` read as quadratic, and three fresh zero cubes |
| StarCheck.CheckStar | awesimsoss/awesim.py:176-192 | passes exactly on a list of 2 or 3 quantities with a length unit followed by F_lambda units; a bare array fails with `TypeError` from the error message's join; every other rejection is a `ValueError` caused by the shape or by a unit |
| StarCheck.CheckStarExamples | awesimsoss/awesim.py:176-189 | a good [W, F] passes; a bare flux is a `TypeError`; a length-unit error column and a four-element star are `ValueError`s |
| Transit.TransitParams.DivideTime | awesimsoss/awesim.py:284-290 | `tmodel.t` is divided in place by the divisor, elementwise |
| Transit.TransitParams.Prepare | awesimsoss/awesim.py:272-290 | the transit model's new state is that of the preparation rule: `limb_dark` defaults to the profile, `t0` is reset, `t` goes to days |
| Transit.DaysIn | awesimsoss/awesim.py:284-290 | seconds, minutes, hours and days divide by 86400, 1440, 24 and 1 respectively |
| Transit.ToDays | awesimsoss/awesim.py:284-290 | each converted time multiplied by its unit's divisor gives back the original |
| Transit.ToDaysCompounds | awesimsoss/awesim.py:284-290 | converting twice divides by the square of the divisor, so a second run with a unit other than days changes every non-zero time again |
| Transit.ResetT0 | awesimsoss/awesim.py:279-280 | a missing `t0` becomes the middle time stamp; a changed `t0` is always the middle time stamp; an empty axis is an `IndexError` |
| Transit.ResetKeepsGivenT0 | awesimsoss/awesim.py:279-280 | on a non-decreasing axis a given `t0` is never reset, because `time[0] > t0 > time[-1]` cannot hold there |
| Transit.Prepared | awesimsoss/awesim.py:275-290 | `limb_dark` defaults to the profile, `t0` follows the reset rule, times go to days, and the stellar parameters are left alone |
| Transit.CurrentStellar | awesimsoss/awesim.py:293 | a stellar parameter the caller never set raises `AttributeError` |
| Transit.LdUpdate | awesimsoss/awesim.py:295-307 | the coefficients change only to a supplied 3-D array; the grid is stored exactly when no coefficients are supplied, a model grid is given and the stellar parameters changed; a non-array value or a regeneration fails with `NameError` and keeps the coefficients |
| Transit.SuppliedCoefficientsWin | awesimsoss/awesim.py:295-296 | a supplied 3-D array is always taken, whatever the grid and the stellar parameters |
| Transit.NoArrayKeepsCoefficients | awesimsoss/awesim.py:295-307 | without a supplied array the coefficients are kept, and the step succeeds exactly when nothing is supplied and no regeneration is asked for |
| Detector.Clamp | awesimsoss/awesim.py:468 | never negative; equals its input exactly when the input is non-negative |
| Detector.ClampedDark | awesimsoss/awesim.py:462-468 | every dark value is scaled by the gain, and the negative ones become 0 |
| Detector.DarkSignal | awesimsoss/awesim.py:462-468 | the in-place scale and clamp yield the clamped dark frame |
| Detector.Ramps | awesimsoss/awesim.py:474-486 | the reference the noise loop is proved against: the integrations' ramps one after the other (its content is stated by `RampsBlock` and its shape by `RampsShaped`) |
| Detector.RampsBlock | awesimsoss/awesim.py:474-486 | frame `g` of integration `m` is the noise steps applied to that integration's frames on the same baseline ramp |
| Detector.WriteRamps | awesimsoss/awesim.py:474-486 | after the loop the exposure holds every integration's ramp, integration `n` written only into frames `[n*ngrps, (n+1)*ngrps)` |
| Detector.AddNoise | awesimsoss/awesim.py:439-488 | the exposure becomes the ramps of the ideal frames on the baseline built once from the clamped dark signal |
| Detector.Refpixed | awesimsoss/awesim.py:499-501 | columns 0-3, the last 4 columns and the last 4 rows equal `counts`; every other pixel is unchanged |
| Detector.RefpixIdempotent | awesimsoss/awesim.py:499-501 | painting the border twice gives the same exposure as painting it once |
| Detector.AddRefpix | awesimsoss/awesim.py:490-501 | the in-place slice assignments leave the exposure with the border painted |
| Detector.TopRows | awesimsoss/awesim.py:393-397 | `t[:, :m, :]` keeps the first `min(m, rows)` rows of every frame unchanged |
| Detector.Trim | awesimsoss/awesim.py:393-397 | a fresh array holding the trimmed exposure |
| Detector.TrimmedBorder | awesimsoss/awesim.py:393-397 | after the trim, the painted top rows are gone and only the side borders remain |
| Detector.TopRowsAll | awesimsoss/awesim.py:393-397 | trimming to all the rows changes nothing |
| Subarray.Lookup | awesimsoss/awesim.py:1103-1106 | a known name gives its entry; any other name gives the whole table |
| Subarray.KnownNames | awesimsoss/awesim.py:1071-1101 | the table has exactly the fourteen NIRISS readouts |
| Subarray.BordersFit | awesimsoss/awesim.py:1071-1101 | in every entry the reference borders are narrower than the extent in both directions |
| Subarray.DefaultIsTable | awesimsoss/awesim.py:1041 | the default argument `''` returns the whole table |
| Subarray.SossRowsAgree | awesimsoss/awesim.py:1071-1079 | the three SOSS strips have the heights that both first-generation row rules give them |
| Subarray.FrameTimesDisagree | awesimsoss/awesim.py:1073-1079 | the table's frame times for the SOSS strips differ from the first generation's |
| Tensors.SumCubesPointwise | awesimsoss/awesim.py:382 | each pixel of the summed cubes is the base plus the sum of the cubes' values there |
| Tensors.SumCubesConcat | AWESim_SOSS/sim2D/awesim.py:953 | accumulating two runs one after another equals accumulating all their cubes at once |
| Tensors.RunOrdersDetermined | awesimsoss/awesim.py:310-379 | a loop that kept the results up to the first failure, and ends with that failure, has computed the order run |
| AwesimTso.InitOrders | awesimsoss/awesim.py:97-143 | a bad star fails with its check's error, a bad order with `TypeError`, and a star whose spectrum cannot be interpolated with `ValueError` when an order remains; otherwise the normalised orders after the F277W rule |
| AwesimTso.InitOrdersSpec | awesimsoss/awesim.py:127-135 | the orders kept are valid, ascending and distinct; they are [1] for F277W and exactly the orders given otherwise |
| AwesimTso.PsfCubes | awesimsoss/awesim.py:139-143 | exactly the kept orders get a PSF cube, each scaled by the star's flux at the order's mean wavelengths |
| AwesimTso.Flux | awesimsoss/awesim.py:141 | wavelengths outside the star's range get zero flux |
| AwesimTso.TileTimes | awesimsoss/awesim.py:359 | `np.tile(time[:ngrps], nints)` has `min(ngrps, len(time))*nints` entries |
| AwesimTso.TileTimesAt | awesimsoss/awesim.py:359 | element `k` of the tiled axis is `time[k mod min(ngrps, len(time))]` |
| AwesimTso.TiledExposure | awesimsoss/awesim.py:359-360 | on a full exposure the tiled axis has one entry per frame and frame `k` is scaled by `time[k mod ngrps]` |
| AwesimTso.PlanetRadius | awesimsoss/awesim.py:324-328 | no planet gives radius 1 at every column; a planet spectrum that cannot be interpolated is a `ValueError` |
| AwesimTso.Curves | awesimsoss/awesim.py:348-351 | one light curve per zipped column, each computed from that column's inputs, each as long as the time axis |
| AwesimTso.OrderFrames | awesimsoss/awesim.py:313-372 | fails with `ValueError` exactly when there is no column to zip; otherwise one frame per time stamp |
| AwesimTso.OrderFramesScaling | awesimsoss/awesim.py:356-370 | frame `k` is `make_frame` of every column's PSF at time `k` scaled by `time[k mod ngrps]` |
| AwesimTso.OrderFramesShaped | awesimsoss/awesim.py:369-370 | the frames have the shape `make_frame` gives |
| AwesimTso.OrderCube | awesimsoss/awesim.py:310-372 | `IndexError` exactly when there is no coefficient plane for the order; any other failure is a `ValueError`; otherwise a frame per time stamp |
| AwesimTso.BadPlanetStopsOrder | awesimsoss/awesim.py:324-325 | a planet spectrum that cannot be interpolated stops the order with `ValueError` |
| AwesimTso.OrderCubeShaped | awesimsoss/awesim.py:310-379 | a computed order cube has the exposure's shape |
| AwesimTso.RunCubesShaped | awesimsoss/awesim.py:310-379 | every cube of a run has the exposure's shape |
| AwesimTso.SameModelKeepsCoefficients | awesimsoss/awesim.py:268-306 | passing the stored model again, without coefficients, keeps them and succeeds, with or without a grid |
| AwesimTso.FirstRunWithGridFails | awesimsoss/awesim.py:300-304 | a first model with a grid stores the grid, then fails with `NameError` in the setter |
| AwesimTso.OrderExposures | awesimsoss/awesim.py:382 | collects the per-order exposures of the given orders, in order |
| AwesimTso.Expose | awesimsoss/awesim.py:382-390 | builds fresh ideal and noisy exposures holding the sum and its ramps with the border painted |
| AwesimTso.Tso.constructor | awesimsoss/awesim.py:97-160 | the fixed fields as given, 2048 columns and one reset, zero coefficients of (3, 2048, 2), no planet, no transit model, and four zero exposures |
| AwesimTso.Tso.Reset | awesimsoss/awesim.py:255-258 | all four exposures are zero, and nothing else changes |
| AwesimTso.Tso.PlanetBranch | awesimsoss/awesim.py:262-307 | the planet and transit model are stored, the model is prepared, and the coefficients and grid follow the update rule; the exposures are untouched |
| AwesimTso.Tso.SetOrderIdeal | awesimsoss/awesim.py:379 | only the order's own exposure is replaced, by a fresh array holding its cube |
| AwesimTso.Tso.ComputeOrders | awesimsoss/awesim.py:310-379 | the loop yields the cubes up to the first failing order and that failure; each order that ran holds its cube, the others keep their arrays |
| AwesimTso.Tso.StoreSum | awesimsoss/awesim.py:382-386 | the ideal exposure and its copy are fresh arrays holding the sum; the order exposures are untouched |
| AwesimTso.Tso.SumAndNoise | awesimsoss/awesim.py:382-390 | the ideal exposure is the sum of the order cubes; with one order `add_noise` fails with `ValueError` on the ragged stack (line 454) and the noisy exposure is the plain copy; otherwise the noisy one is its ramps with the border painted |
| AwesimTso.Tso.Deliver | awesimsoss/awesim.py:382-403 | the sum, its noise and border, and the SUBSTRIP96 trim of all four exposures; the closing reshape fails with `ValueError` exactly when the rows do not match; a single order stops with `ValueError` in `add_noise`, untrimmed |
| AwesimTso.Tso.TrimAndReshape | awesimsoss/awesim.py:393-403 | the four exposures are trimmed on SUBSTRIP96 and left alone otherwise; the reshape fails with `ValueError` exactly when the rows do not match |
| AwesimTso.Tso.TrimSums | awesimsoss/awesim.py:393-395 | the ideal and the noisy exposure are cut to the subarray's rows |
| AwesimTso.Tso.TrimOrders | awesimsoss/awesim.py:396-397 | the per-order exposures are cut to the subarray's rows |
| AwesimTso.Tso.Produce | awesimsoss/awesim.py:310-403 | from zeroed exposures, a run ends as the order loop decides: at the first failing order, with `IndexError` when there are no orders, with `ValueError` in `add_noise` after the sum when there is one order, or delivered |
| AwesimTso.Tso.TransitRun | awesimsoss/awesim.py:262-403 | on the transit path, the model is prepared and the update rule applied; a failing update leaves the exposures zero, and otherwise the run ends as `Produce` says (a single order included), with the new coefficients and the prepared model |
| AwesimTso.Tso.RunSimulation | awesimsoss/awesim.py:194-406 | the exposures are reset on every call; a bad time unit is a `ValueError` that leaves the model alone; without a planet and a transit model the stored state is used and a transit model passed alone is left unchanged; otherwise as on the transit path; in every case a run that gets through the order loop with one order stops with `ValueError` in `add_noise` |
| AwesimTso.NewTso | awesimsoss/awesim.py:58-160 | fails exactly as the star check and the order normalisation do, and with `ValueError` when an order remains and the star cannot be interpolated (line 141); otherwise a fresh object with the kept orders, their PSF cubes, zero coefficients and zero exposures, built for any `ngrps` and `nints` and fit for runs exactly when both are positive |

## Left out

- Plotting (`plot_*`), FITS and text I/O (`to_fits`, `save_tso`, `load_tso`, the calibration and reference files, joblib dumps), the verbose timing, and the `sys.stdout` redirection are not modelled.
- Concurrency: the `multiprocessing.Pool`, `ThreadPool` and `starmap` fan-outs are modelled as a sequential map, and the `n_jobs` clamp is left out.
- Collaborators whose code is not part of this model are function parameters carrying only the shape contracts the simulator relies on. These are batman's `TransitModel.light_curve`, `psf_position`, `distance_map`, `wave_solutions`, `mt.psf_lightcurve`, `mt.make_frame`, `mt.SOSS_psf_cube`, `mt.trace_polynomials`, the photometric response table and `gd.make_exposure`/`add_signal`/`non_linearity`/`add_pedestal`.
- Floating point, NaN and infinities are not modelled: arithmetic is over exact reals. `np.nanmin` of the star's wavelengths is their minimum.
- Transcendental and fitted numerics are not modelled: `polyfit`/`polyval` for `pfd2adu` (a per-pixel input here), `np.sqrt` of the transit depth (a parameter), `trapz`, and the astropy unit conversions (the response factor is a given function).
- The reshape to four dimensions (`self.dims`) is not modelled separately: frames stay flattened over integrations × groups, and only the row check that makes the reshape fail is kept. The four-dimensional zeros of the reset are flattened the same way; their shape matters only for the single-order stack in `add_noise`, which the model makes fail with `ValueError`.
- `gd.make_photon_yield`, the zodiacal background scale and the dark offset are not modelled: the photon yield, zodi and offset arguments of `add_signal` and the other ramp steps are inside the given noise functions.
- The `rp` and `photom_order{n}` attributes written during a run are not stored: they are outputs nothing in the model reads back.
- A `KeyError` for an unknown subarray in `mt.SUBARRAY_Y` and `mt.FRAME_TIMES` during construction is not modelled: the rows and the frame time are constructor inputs.
- Python's `None` and a missing attribute are both `None` in the model. A stellar parameter that is absent raises `AttributeError`, as when the caller never set it.
- The aliasing between `tmodel.t` and the time array handed to `batman.TransitModel` is not modelled: `t` is a fresh array of the transit model.
- `PyStrings.Upper`: upper-cases ASCII letters only; other characters are unchanged, unlike Python's Unicode `str.upper`.
- `Sim2dTso.NewTso`: the remaining constructor arguments (`snr`, `target`, the orbital parameters copied with `setattr`, `pfd2adu`, the wavelength maps) are not stored, because the modelled operations never read them.
- `Sim2dTso.Tso.RunSimulation`: the `params` object, whose `limb_dark`, `u` and `rp` each pixel overwrites before building a batman model, is the transit-model function of the profile, the coefficients and the depth (`None` for the default `''`, which fails with `AttributeError`), so the leftover values in `params` after a run are not modelled.
- `AwesimTso.Tso.RunSimulation`: runs of an object built with `ngrps = 0` or `nints = 0` are not modelled (`Valid` excludes them). With no time stamp the `t0` test indexes an empty axis, and the order loop leaves one-dimensional empty arrays that the three-dimensional model cannot express; what the noise generators do with empty ramps is not part of this model.
- `AwesimTso.Tso`: `star` is a constant set once, after `_check_star` passes in the constructor; the model has no later call of `_check_star`, nor does the source.
- `AwesimTso.Tso.RunSimulation`: `is_tmodel` is modelled as "a transit model object was passed" and `model_grid` as a flag saying whether it is an ExoCTK `ModelGrid`.
- `AwesimTso.Tso.RunSimulation`: `add_refpix()` paints the default `counts=0` as `0.0`.
- `AwesimTso.Tso.Produce`: with no orders, `np.sum([])` is the scalar `0.0`, and `tso_ideal` and its copy `tso` become that scalar before the first slice of it in `add_noise` raises `IndexError`. The model keeps the error but not that state: the exposures are three-dimensional arrays, so it leaves the reset zero cubes in `tso` and `tso_ideal`.
- `AwesimTso.Tso.TransitRun`: a transit run with no orders ends, through `Produce`, with the reset zero cubes in `tso` and `tso_ideal` where the source leaves the scalar `0.0`.
- `AwesimTso.Tso.RunSimulation`: a run with no orders ends, through `Produce`, with the reset zero cubes in `tso` and `tso_ideal` where the source leaves the scalar `0.0`.
- `Numpy.Interp`: modelled as a left-to-right scan for the segment that holds the point, which agrees with `np.interp` when the sample points increase. On sample points that do not increase, numpy's binary search can pick another segment, and the model does not follow it. This affects the star and planet interpolations of `Lightcurve.Lightcurve`, `AwesimTso.Flux`, `AwesimTso.PlanetRadius` and `Rebin.Oversample`: they are modelled for increasing wavelength grids only.
- `Numpy.SearchLeft`: the length of the leading run below the value, which is `np.searchsorted(side='left')` on a sorted sequence. On an unsorted sequence numpy's binary search can give another index (`searchsorted([0, 5, 1, 2], 3)` is 4, the model gives 1), so the bin ranges of `Rebin.BinStart` and `Rebin.RebinSpec` are modelled for increasing wavelength grids only.
- The `ld_coeffs` setter's regeneration branch, the type-joining message of `_check_star` and the `t0` reset condition are modelled as written (`NameError`, `TypeError`, reset only when `t0` is missing). They are not modelled as the intended behaviour.
- `ld_coefficient_map`'s file name parsing (`ld_profile`) and the coefficient count from the law's signature are inputs (`ncoeffs`).
- The empty `add_noise_model` stub, the `TestTSO` and `BlackbodyTSO` fixtures, and `setup.py` are not modelled.
