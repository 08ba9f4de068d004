# Extrapolator and spectral generators of `colour`

A Dafny model of two parts of the `colour` colour-science library.

- **`Extrapolator`** (`colour/algebra/extrapolation.py`) wraps a 1-D
  interpolator so that it answers for any real input. Inside the
  interpolator's closed range it delegates to the interpolator. Below and
  above the range it extends the data with the *Linear* or *Constant*
  method, unless a `left` or `right` value is set for that side. Its
  setters validate what they are given. Evaluation fills an output buffer
  in three masked passes: the method pass, the override pass and the
  in-range pass.
- **The spectral generators** (`colour/colorimetry/generation.py`) tabulate
  a distribution over the wavelengths of a spectral shape:
  - constant, zero and one tables, single and multi-column;
  - the normal gaussian and the gaussian given by its full width at half
    maximum;
  - the Ohno (2005) single LED and the superposition of several LEDs;
  - the dispatchers `sd_gaussian`, `sd_single_led` and `sd_multi_leds`,
    which choose a generator by method name without regard to case.

The project has three modules:

- `Common` (`common.dfy`): optional values, results carrying the library's
  exceptions, the dynamically typed values a caller may hand to a setter,
  and `validate_method`.
- `Extrapolation` (`extrapolation.dfy`):
  - `ExtrapolateAt` specifies the value at one input;
  - class `Extrapolator` has the four configuration fields and the
    validating setters;
  - `Evaluate` fills an `array` buffer with masked-assignment loops and is
    proved to yield `ExtrapolateAt` at every element.
- `Generation` (`generation.dfy`):
  - a table is the grid of its shape, its values and the keyword settings
    it was built with;
  - `np.exp`, `np.sqrt` and `np.log` are parameters (`Transcendentals`);
  - the multi-LED loop is a method proved against the specification
    function `Superposition`.

## Model

| member | source | states |
|---|---|---|
| Common.ValidateMethod | colour/algebra/extrapolation.py:225 | succeeds exactly when the name equals a registered name up to case, and then returns it lower-cased; otherwise the invalid-method error naming the registered methods |
| Common.Lower | colour/algebra/extrapolation.py:225 | the lower-casing the method lookup applies: one character out per character in, ASCII capitals mapped to small letters |
| Common.LowerIdempotent | colour/algebra/extrapolation.py:225-227 | a lower-cased, validated method name validates again to itself |
| Extrapolation.SafeDiv | colour/algebra/extrapolation.py:331-337 | the slope division: 0 for a zero denominator, otherwise the quotient, whose product with the denominator is the numerator |
| Extrapolation.ExtrapolateAt | colour/algebra/extrapolation.py:328-348 | the value `_evaluate` gives one input: the interpolator in the closed range; below it `left` if set, else the method's value; above it `right` if set, else the method's value; its properties are the law lemmas below |
| Extrapolation.ClassesPartition | colour/algebra/extrapolation.py:330-348 | below, above and inside the closed range partition the reals, so each slot is decided by exactly one class of assignments |
| Extrapolation.InRangeIsInterpolated | colour/algebra/extrapolation.py:347-348 | every input in the closed range, ends included, gets the interpolator's value, whatever the method and overrides |
| Extrapolation.BoundaryContinuity | colour/algebra/extrapolation.py:347-348 | both end samples are answered by the interpolator |
| Extrapolation.LinearLaw | colour/algebra/extrapolation.py:330-337 | without overrides the linear method follows the line through the first two samples below the range and the last two above it; the safe division is an ordinary one because positions increase strictly |
| Extrapolation.ConstantLaw | colour/algebra/extrapolation.py:338-340 | without overrides the constant method repeats the first sample value below and the last one above |
| Extrapolation.OverrideLaw | colour/algebra/extrapolation.py:342-345 | a set `left` answers everything below the range and a set `right` everything above, whatever the method; neither affects the other side or the range |
| Extrapolation.DocumentedExamples | colour/algebra/extrapolation.py:101-134 | the class documentation's values: linear -1 at 1 and 4, 5, 6 at 6, 7, 8; constant 1, 1, 3, 3; constant with left 0 gives 0, 0, 3, 3 |
| Extrapolation.AssignWhere | colour/algebra/extrapolation.py:332-348 | masked assignment `y[mask] = f(x[mask])`: selected slots get `f` of their input, every other slot is unchanged |
| Extrapolation.PassesCompose | colour/algebra/extrapolation.py:328-348 | the method, override and in-range passes applied to an unwritten slot write it, with the extrapolated value of its input |
| Extrapolation.InterpolatorCheck | colour/algebra/extrapolation.py:183-196 | an interpolator is accepted exactly when it has `x` and `y`; a missing `x` is reported before a missing `y` |
| Extrapolation.MethodCheck | colour/algebra/extrapolation.py:217-227 | the method setter accepts exactly strings naming "Linear" or "Constant" up to case and keeps the lower-cased name; a non-string fails the string check, another string fails validation |
| Extrapolation.MethodNames | colour/algebra/extrapolation.py:217-227 | "Linear", "LINEAR" and "constant" are accepted as "linear"/"constant"; "Cubic" and a number are rejected with their errors |
| Extrapolation.MethodRoundTrip | colour/algebra/extrapolation.py:199-227 | setting `method` to the name its getter returns after a successful set is accepted and stores the same name |
| Extrapolation.OverrideCheck | colour/algebra/extrapolation.py:248-257 | the `left`/`right` setters accept exactly `None` and numbers |
| Extrapolation.Extrapolator.Defaults | colour/algebra/extrapolation.py:149-158 | the fields' initial values before the setters run: placeholder interpolator, "Linear", no overrides |
| Extrapolation.Extrapolator.Create | colour/algebra/extrapolation.py:137-160 | construction fails exactly with the first error of the setters in source order (interpolator, method, right, left); a constructed object keeps the lower-cased method (default "Linear"), the given interpolator and the numeric overrides |
| Extrapolation.Extrapolator.SetInterpolator | colour/algebra/extrapolation.py:183-196 | a rejected interpolator leaves the field unchanged; an accepted one replaces it |
| Extrapolation.Extrapolator.SetMethod | colour/algebra/extrapolation.py:217-227 | a rejected method leaves the field unchanged; an accepted one stores its lower-cased name, keeping the object valid |
| Extrapolation.Extrapolator.SetLeft | colour/algebra/extrapolation.py:248-257 | `None` and non-numbers leave `left` unchanged (non-numbers raise); a number replaces it |
| Extrapolation.Extrapolator.SetRight | colour/algebra/extrapolation.py:278-287 | the mirror image of the `left` setter for `right` |
| Extrapolation.Extrapolator.MethodPass | colour/algebra/extrapolation.py:330-340 | after the method pass each slot holds the linear or constant value where its input is below or above the range, and its previous content otherwise |
| Extrapolation.Extrapolator.OverridePass | colour/algebra/extrapolation.py:342-345 | after the override pass each slot below (above) the range holds `left` (`right`) when set, and its previous content otherwise |
| Extrapolation.Extrapolator.Evaluate | colour/algebra/extrapolation.py:310-350 | the output has one element per input, each the extrapolated value of its own input |
| Extrapolation.Extrapolator.Call | colour/algebra/extrapolation.py:289-308 | calling on one number returns the extrapolated value at it |
| Generation.Update | colour/colorimetry/generation.py:128-129 | keyword arguments override the generator's defaults key by key, and the other defaults stay |
| Generation.SdConstant | colour/colorimetry/generation.py:128-133 | one value `k` per grid wavelength; name and linear interpolator are defaults that keyword arguments override |
| Generation.SdZeros | colour/colorimetry/generation.py:173 | the constant table of 0 |
| Generation.SdOnes | colour/colorimetry/generation.py:213 | the constant table of 1 |
| Generation.MsdsConstant | colour/colorimetry/generation.py:264-272 | a wavelengths-by-labels matrix of `k`, labelled with the labels, with the same overridable defaults |
| Generation.MsdsZeros | colour/colorimetry/generation.py:320 | the constant multi-column table of 0 |
| Generation.MsdsOnes | colour/colorimetry/generation.py:368 | the constant multi-column table of 1 |
| Generation.GaussianAt | colour/colorimetry/generation.py:421 | the gaussian value at one wavelength, written over the standard score; its properties are the gaussian lemmas below |
| Generation.GaussianPeakAndSymmetry | colour/colorimetry/generation.py:421 | the gaussian is exp(0) at its mean and symmetric about it |
| Generation.GaussianAtDeviations | colour/colorimetry/generation.py:421 | k standard deviations from the mean the gaussian is exp(-k²/2) for every sigma; one sigma below, exp(-1/2) |
| Generation.SdGaussianNormal | colour/colorimetry/generation.py:418-423 | the gaussian of mean `mu` and deviation `sigma` at every grid wavelength, with an overridable name |
| Generation.FwhmToSigma | colour/colorimetry/generation.py:477 | a nonzero full width gives a nonzero standard deviation |
| Generation.FwhmHalfMaximum | colour/colorimetry/generation.py:465-478 | the gaussian built from a full width is exp(-ln 2) at half the width on either side of the peak and exp(-4 ln 2) a full width below it |
| Generation.SdGaussianFwhm | colour/colorimetry/generation.py:474-480 | the gaussian with the deviation derived from the full width, at every grid wavelength |
| Generation.LedAt | colour/colorimetry/generation.py:614-617 | the Ohno LED value at one wavelength, (g + 2 g⁵) / 3 with g the gaussian-like exponential; its properties are the LED lemmas below |
| Generation.LedPeakAndSymmetry | colour/colorimetry/generation.py:614-617 | the Ohno LED is 1 at its peak and symmetric about it |
| Generation.LedBounds | colour/colorimetry/generation.py:614-617 | every LED value lies in (0, 1], so the peak value is the maximum |
| Generation.SdSingleLedOhno2005 | colour/colorimetry/generation.py:608-619 | the LED of the given peak and half width at every grid wavelength, with an overridable name |
| Generation.Resize | colour/colorimetry/generation.py:749-751 | `np.resize` to the number of peaks: exactly that many elements; its content is stated by ResizeAt |
| Generation.ResizeAt | colour/colorimetry/generation.py:749-757 | `np.resize` is cyclic: element `i` is element `i mod len` of the input; an empty input resizes to zeros |
| Generation.PowerRatios | colour/colorimetry/generation.py:752-757 | one ratio per peak: all ones when none are given, the given ratios resized otherwise |
| Generation.ResizedWidthsNonZero | colour/colorimetry/generation.py:749-751 | nonzero half widths stay nonzero when resized to the number of peaks |
| Generation.Scaled | colour/colorimetry/generation.py:764-770 | a table times a ratio: every value scaled, wavelengths and settings kept |
| Generation.Added | colour/colorimetry/generation.py:764 | `sd +=` over the same grid: values added pointwise, the left table's settings kept |
| Generation.Superposition | colour/colorimetry/generation.py:759-769 | the multi-LED value at one wavelength: each LED times its power ratio, added in peak order to 0; the loop is proved against it |
| Generation.AccumulatedIsSuperposition | colour/colorimetry/generation.py:759-770 | the table the loop accumulates holds, at each wavelength, the ratio-weighted sum of the LEDs added so far |
| Generation.SdMultiLedsOhno2005 | colour/colorimetry/generation.py:748-783 | at each grid wavelength the sum over peaks of the LED with the resized half width times the resized (or unit) power ratio; settings are those of `sd_zeros` with the name set from the three lists |
| Generation.SuperpositionBounds | colour/colorimetry/generation.py:759-770 | with non-negative ratios the multi-LED value lies between 0 and the sum of the ratios |
| Generation.SinglePeakIsSingleLed | colour/colorimetry/generation.py:749-770 | one peak with the default ratio is the single LED of that peak and the first half width |
| Generation.GaussianKeys | colour/colorimetry/generation.py:483-485 | the gaussian registry's keys as the dispatcher matches them: "normal", "fwhm" |
| Generation.SingleLedKeys | colour/colorimetry/generation.py:622-626 | the single-LED registry's key as the dispatcher matches it: "ohno 2005" |
| Generation.MultiLedsKeys | colour/colorimetry/generation.py:786-790 | the multi-LED registry's key as the dispatcher matches it: "ohno 2005" |
| Generation.SdGaussian | colour/colorimetry/generation.py:552-555 | succeeds exactly for "Normal" or "FWHM" up to case, giving the normal or full-width gaussian; otherwise the invalid-method error naming the registry |
| Generation.SdSingleLed | colour/colorimetry/generation.py:680-683 | succeeds exactly for "Ohno 2005" up to case, giving the Ohno single LED; otherwise the invalid-method error |
| Generation.SdMultiLeds | colour/colorimetry/generation.py:849-852 | succeeds exactly for "Ohno 2005" up to case, giving the multi-LED superposition over the grid; otherwise the invalid-method error |
| Generation.GaussianDocumentedExamples | colour/colorimetry/generation.py:536-549 | the documented values: `sd_gaussian(555, 25)` is exp(-1/2) at 530; with "FWHM" (any case) it is exp(-4 ln 2) = 1/16 there; "Cubic" fails |
| Generation.SingleLedDocumentedExample | colour/colorimetry/generation.py:673-677 | the documented value: `sd_single_led(555, half_spectral_width=25)` is 1 at 555; an unregistered method fails |

## Left out

- Spectral shapes are represented by their wavelength grids. `SpectralShape`, its default 360–780 nm grid, dtypes and N-dimensional inputs are not modelled. Every generator takes the grid of its shape.
- `np.exp`, `np.sqrt` and `np.log` are given functions. The lemmas that need their properties take those properties as preconditions: exp(0) = 1, exp maps non-positive reals into (0, 1], and sqrt(2 ln 2) squares to 2 ln 2.
- Floating point is not modelled. Values are reals, and NaN and infinities are absent. So the generators require a nonzero `sigma`, `fwhm` or half width where they divide by it, where the library would produce infinities or NaN. The dispatchers require it only when the method name selects a generator that divides by it. The multi-LED generators require it only of the half widths left after resizing to the number of peaks.
- Generation.GaussianAt: the exponent is written as -((w - mu) / sigma)² / 2 rather than the source's -(w - mu)² / (2 sigma²). For nonzero sigma these are the same real number, but the model does not prove that equality.
- Generation.SdMultiLedsOhno2005: the source builds each LED on the default shape, because `shape` is not among the keyword arguments passed to the LED generator, and then adds it to a table on the requested shape. The model builds every LED on the requested grid. It does not model the library's alignment of tables on different grids.
- Generation.SdSingleLed: `half_spectral_width` is an explicit parameter here. The source reads it from the keyword arguments, and a call without it raises a `TypeError`, which is not modelled.
- Generation.SdMultiLeds: half widths and power ratios are explicit parameters, as for the single LED. The peaks are always a sequence. A scalar peak, which the source turns into a 0-d array and then fails to iterate with a `TypeError`, is not modelled.
- Generation.SdGaussian, Generation.SdSingleLed, Generation.SdMultiLeds: the method name is always passed. The defaults "Normal" and "Ohno 2005" that the source uses when it is omitted are not modelled.
- Extrapolation.Extrapolator.Evaluate, Extrapolation.Extrapolator.Call: both require the interpolator to have at least two samples, one value per sample, and strictly increasing positions. The source never checks this. The model does not cover evaluation on other interpolators, such as a one-sample interpolator with the constant method, which the source evaluates without error.
- Names are values of a datatype that records the parameters the source formats into its f-strings. The text formatting of floats is not modelled.
- `Lower` lower-cases ASCII letters only. `str.lower` does more, but every registered method name is ASCII.
- `validate_method` and `sdiv` live in files that are not part of this model. `validate_method` is modelled as a case-insensitive lookup. For `sdiv`, the model assumes that the default `sdiv_mode` yields 0 for a zero denominator.
- The placeholder `NullInterpolator` installed when no interpolator is given is the `None` interpolator. `Evaluate` requires a real one, because the placeholder's infinite range needs infinities.
- The `dtype` argument, `as_float_array` and `as_float` conversions, and the aliasing of the interpolator object between the caller and the extrapolator are not modelled.
- `SpectralDistribution` arithmetic is modelled only as used here: scaling by a number, and adding a table over the same grid.
- The test files shipped with the library are not modelled.
