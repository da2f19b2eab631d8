# Reference-dataset selection and peak scaling of the WAKIS comparison plots

`Scripts/CST/plot_module.py` draws the wake potentials and impedances computed
by the WAKIS wake solver next to the reference results exported from CST. Apart
from the drawing, the script makes three decisions, and this project models
and proves them:

- **Offset variant** (module `OffsetVariant`, `variant.dfy`). The transverse
  plots read the beam offsets `xsource`, `ysource`, `xtest` and `ytest` and
  pick the CST keys to compare with. Six unconditional `if` blocks run in a
  fixed order: three quadrupolar blocks on the test offsets, then three
  dipolar blocks on the source offsets. Each block that fires overwrites three
  local variables with the reference data stored under that variant's keys,
  so the last block to fire wins. `SelectWakeKeys` and
  `SelectImpedanceKeys` are these blocks as methods over mutable locals; the
  model keeps the key names in the place of the data read under them.
  `SelectVariant` is the same choice written as one prioritised match.
  `LastFiring` replays the blocks as a sequential overwrite. Lemmas tie the
  three together and state the precedence rules.
- **Peak and scale** (module `Series`, `series.dfy`, and module `Display`,
  `display.dfy`). `MaxOf`/`MinOf` are Python's `max`/`min` and numpy's
  `np.max`. `PeakIndex`/`ArgMax` are `np.argmax`: the first index of a
  maximal sample. `NormFactor` is the display factor
  `max(Z_cst)/max(Z)` when `flag_normalize` is set and `1.0` otherwise, and
  `TransverseNormFactors` is the pair `norm_x`, `norm_y`. The lemmas show
  that the normalised local peak is drawn at the height of the reference
  peak.
- **Overlay window** (`Display.OverlayXLimits`). The horizontal limits of
  the wake-potential overlays are `min(s*1e3)` and
  `min(max(s*1e3), max(s_cst*1e3))`, in millimetres.

Samples and offsets are exact reals. The unit conversion `*1.0e3` is exact
multiplication by 1000. A Python exception that aborts a plot is a `Failure`
value of `Series.Result`: an empty series has no maximum and no argmax
(`EmptySequence`), and a normalisation whose local peak is zero
(`DivisionByZero`). The code divides numpy floats here, so it actually yields
`inf` or `nan` with a runtime warning and draws on. Reals have no infinity, so
the model reports the division as an error. A zero local peak is therefore an
explicit failure rather than an infinite factor.

## Model

| member | source | states |
|---|---|---|
| `OffsetVariant.SelectWakeKeys` | Scripts/CST/plot_module.py:117-147 | the six overwriting blocks leave `WPx_cst`, `WPy_cst`, `s_cst` holding exactly the keys of the variant the prioritised match selects |
| `OffsetVariant.SelectImpedanceKeys` | Scripts/CST/plot_module.py:179-209 | the impedance blocks leave `Zx_cst`, `Zy_cst`, `freq_cst` holding the impedance keys of the same selected variant |
| `OffsetVariant.SelectVariant` | Scripts/CST/plot_module.py:121-147 | the variant is dipolar iff a source offset is nonzero, quadrupolar iff the source is on axis and a test offset is nonzero, and any non-default choice is one whose block guard holds |
| `OffsetVariant.SelectVariantIsLastFiring` | Scripts/CST/plot_module.py:121-147 | the prioritised match equals running the six blocks in source order with each firing block overwriting the choice |
| `OffsetVariant.Fires` | Scripts/CST/plot_module.py:121-147 | the guard of each of the six blocks (lines 122, 126, 130, 136, 140, 144; the same guards at 184-206); a firing block is never the default, a quadrupolar block fires only with a nonzero test offset and a dipolar block only with a nonzero source offset |
| `OffsetVariant.LastFiring` | Scripts/CST/plot_module.py:121-147 | the sequential overwrite: the result is the starting choice or a block that fires; it is the starting choice when no block fires, and the last block wins whenever it fires |
| `OffsetVariant.LastFiringWins` | Scripts/CST/plot_module.py:121-147 | the overwrite rule: whatever the starting choice, a block that fires with no firing block after it is the final choice |
| `OffsetVariant.LastFiringAppend` | Scripts/CST/plot_module.py:121-147 | running the quadrupolar blocks and then the dipolar blocks is running the second group from the state the first group left |
| `OffsetVariant.WakeKeys` | Scripts/CST/plot_module.py:117-147 | every wake key starts with `WPx_`/`WPy_`, and the axis key is `s_cst_dipolar`, `s_cst_quadrupolar` or `s_cst` by the winning family |
| `OffsetVariant.ImpedanceKeys` | Scripts/CST/plot_module.py:179-209 | every impedance key starts with `Zx_`/`Zy_`, and the axis key is `freq_cst_dipolar`, `freq_cst_quadrupolar` or `freq_cst` by the winning family |
| `OffsetVariant.OnAxisKeepsDefaults` | Scripts/CST/plot_module.py:117-147 | the default keys are kept iff all four offsets are exactly zero |
| `OffsetVariant.SourceOffsetWins` | Scripts/CST/plot_module.py:135-147 | with a nonzero source offset the variant is dipolar and does not depend on the test offsets |
| `OffsetVariant.FamiliesExclusive` | Scripts/CST/plot_module.py:121-147 | within each family exactly one block fires when one offset of the pair is nonzero, and none fires otherwise |
| `OffsetVariant.ExactZeroComparison` | Scripts/CST/plot_module.py:121-147 | only whether each offset equals 0.0 matters: any nonzero offset, however small, selects as an offset of 1 would |
| `OffsetVariant.KeysIdentifyVariant` | Scripts/CST/plot_module.py:183-209 | distinct variants read distinct wake and distinct impedance keys, in both directions |
| `OffsetVariant.PrecedenceExample` | Scripts/CST/plot_module.py:121-139 | a 5 mm horizontal test offset selects quadrupolar-X, and adding a 3 mm horizontal source offset switches to dipolar-X |
| `Series.MaxOf` | Scripts/CST/plot_module.py:75 | the maximum is a sample of the series and no sample exceeds it |
| `Series.MinOf` | Scripts/CST/plot_module.py:57 | the minimum is a sample of the series and no sample is below it |
| `Series.PeakIndex` | Scripts/CST/plot_module.py:82 | the index is in bounds, its sample is the maximum, and every earlier sample is strictly smaller (first maximum on ties) |
| `Series.ArgMax` | Scripts/CST/plot_module.py:222-223 | an empty series fails, and otherwise the result is the first index of a maximal sample |
| `Series.FirstPeakUnique` | Scripts/CST/plot_module.py:90 | any index that is the first maximum is the index PeakIndex returns |
| `Series.MaxOfIsBound` | Scripts/CST/plot_module.py:75 | a sample that bounds all samples is the maximum |
| `Series.MinOfIsBound` | Scripts/CST/plot_module.py:57 | a sample bounded by all samples is the minimum |
| `Series.MaxOfMillimetres` | Scripts/CST/plot_module.py:57 | the maximum of `s*1e3` is the maximum of `s` times 1000 |
| `Series.MinOfMillimetres` | Scripts/CST/plot_module.py:57 | the minimum of `s*1e3` is the minimum of `s` times 1000 |
| `Series.ScaledKeepsUpperBound` | Scripts/CST/plot_module.py:87 | scaling by a positive factor keeps a maximal sample maximal |
| `Series.ScaledKeepsStrictPrefix` | Scripts/CST/plot_module.py:87 | scaling by a positive factor keeps earlier samples strictly below a first maximum |
| `Series.Scaled` | Scripts/CST/plot_module.py:87 | `Z*norm` keeps the number of samples (see "Left out" for the elementwise product) |
| `Series.Millimetres` | Scripts/CST/plot_module.py:57 | `s*1.0e3` keeps the number of positions and multiplies each position by 1000 |
| `Series.PeakIndexScaled` | Scripts/CST/plot_module.py:85-87 | scaling by a positive factor does not move the argmax, so the marker at `Z[ifmax]*norm` is the top of the curve `Z*norm` |
| `Display.NormFactor` | Scripts/CST/plot_module.py:74-79 | flag off gives exactly 1.0; flag on fails with `EmptySequence` on an empty series and with `DivisionByZero` on a zero local peak, and otherwise the factor times the local peak is the reference peak |
| `Display.TransverseNormFactors` | Scripts/CST/plot_module.py:212-219 | flag off gives (1.0, 1.0); success iff both factors exist, the X failure is reported first, the Y failure when only Y fails, and each factor maps its local peak onto its reference peak |
| `Display.PeaksAlign` | Scripts/CST/plot_module.py:82-91 | with normalisation on, `Z[argmax Z]*norm` equals `Z_cst[argmax Z_cst]`, the reference maximum |
| `Display.ScaledCurvePeaksAtReference` | Scripts/CST/plot_module.py:85-87 | with both peaks positive the factor is positive, the scaled curve peaks at the same index, and that peak is the reference maximum |
| `Display.Min2` | Scripts/CST/plot_module.py:159 | `np.amin((a, b))` is one of its two arguments and no greater than either |
| `Display.OverlayXLimits` | Scripts/CST/plot_module.py:57 | fails iff either axis is empty; the lower limit is a local position in mm; the upper limit is one of the two maxima in mm and is no greater than either |
| `Display.OverlayXLimitsInMetres` | Scripts/CST/plot_module.py:159 | the window is `(min(s)*1000, min(max(s), max(s_cst))*1000)` |
| `Display.OverlayWindowOrdered` | Scripts/CST/plot_module.py:57 | the lower limit is at most the upper iff the reference axis does not end before the local one starts |
| `Display.OverlayExample` | Scripts/CST/plot_module.py:57 | positions 0..3 mm against reference positions 0..2 mm give the window [0, 2] mm |
| `Display.NormFactorExamples` | Scripts/CST/plot_module.py:74-79 | peaks 10 and 5 give factor 2, an all-zero local series fails with `DivisionByZero`, and the flag off gives 1.0 even for an empty series |

## Left out

- Loading results: `read_WarpX_out`, `read_CST_out` and `read_WAKIS_out` (lines 20-37) read pickle files. The entry points load them in default arguments at definition time (lines 39, 63, 105, 165, 257, 264). The model receives the series and offsets as parameters.
- Key lookups: `cst_data.get(key)` returns `None` for an absent key. The selectors return the key names and do not look anything up.
- Rendering: every matplotlib call is left out, and so are the titles and annotations built with `round`/`str` (for example lines 76, 86, 156, 215). That includes the `flag_compare_cst` switch, which only decides what is drawn. The annotations at lines 228 and 238 use the unscaled `Zx[ifxmax]`/`Zy[ifymax]`. The title at line 215 reports only `norm_x`.
- Floating point: values are exact reals. The model does not capture NaN (a NaN offset compares unequal to 0.0 and counts as an offset, and NaN samples upset `max` and `argmax`), rounding in `*1.0e3` and `*1e-9`, or numpy's `inf` from dividing by a zero maximum. The last is reported as `DivisionByZero`.
- `Display.NormFactor`: on a zero local peak the code yields `inf`/`nan` and keeps drawing. The model returns `Failure(DivisionByZero)` instead, because reals have no infinity. For `TransverseNormFactors` this changes which error is reported in one case: when `Zx` has a zero peak and `Zy` is empty, the code gets `inf` for `norm_x` and then fails on `max(Zy)` (an `EmptySequence`), whereas the model reports the X side's `DivisionByZero` first.
- `Series.Scaled`: its contract states only that the length is kept. Each element being the sample times the factor is its definition; stated as a postcondition, that nonlinear fact over all indices enters every proof that mentions a scaled series and makes the solver run out of resource. The lemmas about `Z*norm` (`PeakIndexScaled`, `ScaledCurvePeaksAtReference`) carry the properties instead.
- `Series.MaxOf`: as for `MinOf` and `PeakIndex`, it requires a non-empty series. Python's `max`/`min` and `np.argmax` raise on an empty one, and that error path is modelled by `ArgMax`, `NormFactor` and `OverlayXLimits`.
- `plot_WAKIS` (lines 257-262) only calls the four plots in turn.
- `subplot_WAKIS` (lines 264-339) has no comparison logic, and it reads the undefined name `f` at lines 293 and 323. The `__main__` block (lines 341-353) is left out too.
- The impedance-axis upper limit `np.max(freq_cst)` (lines 99, 251) and the `ylim` of line 98 are left out. They are drawing parameters built from `MaxOf` with no decision in them.
