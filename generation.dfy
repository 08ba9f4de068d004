/** The spectral generators of `colour.colorimetry.generation`: tables of
    (wavelength, value) over the grid of a spectral shape, filled with a
    constant, a gaussian, one LED or a superposition of LEDs, and the
    dispatchers that pick a generator from a registry by method name. */
module Generation {
  import opened Common

  /** The transcendental functions the generators call (`np.exp`, `np.sqrt`,
      `np.log`), taken as given functions on the reals. */
  datatype Transcendentals = Transcendentals(exp: real -> real, sqrt: real -> real, ln: real -> real)

  /** The name a generator gives its table.  A caller's text, or the
      parameters the default name is formatted from. */
  datatype SdName =
    | Text(text: string)
    | ConstantName(k: real)
    | GaussianNormalName(mu: real, sigma: real)
    | GaussianFwhmName(peak: real, fwhm: real)
    | SingleLedName(peak: real, halfWidth: real)
    | MultiLedsName(peaks: seq<real>, halfWidths: seq<real>, ratios: seq<real>)

  /** A keyword argument passed on to the table's constructor. */
  datatype Setting =
    | Name(name: SdName)
    | InterpolatorClass(className: string)
    | Passed(description: string)

  /** Keyword arguments by keyword. */
  type Settings = map<string, Setting>

  /** A spectral distribution: values paired with the wavelengths of a grid,
      and the keyword arguments it was built with. */
  datatype SpectralDistribution = SpectralDistribution(wavelengths: seq<real>, values: seq<real>, settings: Settings)

  /** Multi-spectral distributions: one row of values per wavelength, one
      column per label. */
  datatype MultiSpectralDistributions =
    MultiSpectralDistributions(wavelengths: seq<real>, values: seq<seq<real>>, labels: seq<string>, settings: Settings)

  /** `settings.update(kwargs)`: every keyword the caller gives wins over the
      generator's default for it; the other defaults stay. */
  function Update(settings: Settings, kwargs: Settings): (r: Settings)
    ensures r.Keys == settings.Keys + kwargs.Keys
    ensures forall key :: key in kwargs ==> r[key] == kwargs[key]
    ensures forall key :: key in settings && key !in kwargs ==> r[key] == settings[key]
  {
    settings + kwargs
  }

  /** `full(n, k)`. */
  function Full(n: nat, k: real): (r: seq<real>)
    ensures |r| == n && forall i :: 0 <= i < n ==> r[i] == k
  {
    seq(n, _ => k)
  }

  /** The defaults of `sd_constant` and `msds_constant`: a name that embeds
      `k` and linear interpolation. */
  function ConstantDefaults(k: real): Settings
  {
    map["name" := Name(ConstantName(k)), "interpolator" := InterpolatorClass("LinearInterpolator")]
  }

  /** `sd_constant(k, shape, **kwargs)` over the grid of `shape`. */
  function SdConstant(k: real, grid: seq<real>, kwargs: Settings): (sd: SpectralDistribution)
    ensures sd.wavelengths == grid && |sd.values| == |grid|
    ensures forall i :: 0 <= i < |grid| ==> sd.values[i] == k
    ensures sd.settings.Keys == kwargs.Keys + {"name", "interpolator"}
    ensures forall key :: key in kwargs ==> sd.settings[key] == kwargs[key]
    ensures "name" !in kwargs ==> sd.settings["name"] == Name(ConstantName(k))
    ensures "interpolator" !in kwargs ==> sd.settings["interpolator"] == InterpolatorClass("LinearInterpolator")
  {
    SpectralDistribution(grid, Full(|grid|, k), Update(ConstantDefaults(k), kwargs))
  }

  /** `sd_zeros(shape, **kwargs)`: the constant table of 0. */
  function SdZeros(grid: seq<real>, kwargs: Settings): (sd: SpectralDistribution)
    ensures sd == SdConstant(0.0, grid, kwargs)
    ensures sd.wavelengths == grid && |sd.values| == |grid|
    ensures forall i :: 0 <= i < |grid| ==> sd.values[i] == 0.0
  {
    SdConstant(0.0, grid, kwargs)
  }

  /** `sd_ones(shape, **kwargs)`: the constant table of 1. */
  function SdOnes(grid: seq<real>, kwargs: Settings): (sd: SpectralDistribution)
    ensures sd == SdConstant(1.0, grid, kwargs)
    ensures sd.wavelengths == grid && |sd.values| == |grid|
    ensures forall i :: 0 <= i < |grid| ==> sd.values[i] == 1.0
  {
    SdConstant(1.0, grid, kwargs)
  }

  /** `msds_constant(k, labels, shape, **kwargs)`: a wavelengths-by-labels
      matrix of `k`, labelled with `labels`. */
  function MsdsConstant(k: real, labels: seq<string>, grid: seq<real>, kwargs: Settings): (msds: MultiSpectralDistributions)
    ensures msds.wavelengths == grid && msds.labels == labels && |msds.values| == |grid|
    ensures forall i :: 0 <= i < |grid| ==> |msds.values[i]| == |labels|
    ensures forall i, j :: 0 <= i < |grid| && 0 <= j < |labels| ==> msds.values[i][j] == k
    ensures msds.settings.Keys == kwargs.Keys + {"name", "interpolator"}
    ensures forall key :: key in kwargs ==> msds.settings[key] == kwargs[key]
    ensures "name" !in kwargs ==> msds.settings["name"] == Name(ConstantName(k))
    ensures "interpolator" !in kwargs ==> msds.settings["interpolator"] == InterpolatorClass("LinearInterpolator")
  {
    MultiSpectralDistributions(grid, seq(|grid|, _ => Full(|labels|, k)), labels, Update(ConstantDefaults(k), kwargs))
  }

  /** `msds_zeros(labels, shape, **kwargs)`. */
  function MsdsZeros(labels: seq<string>, grid: seq<real>, kwargs: Settings): (msds: MultiSpectralDistributions)
    ensures msds == MsdsConstant(0.0, labels, grid, kwargs)
    ensures forall i, j :: 0 <= i < |grid| && 0 <= j < |labels| ==> msds.values[i][j] == 0.0
  {
    MsdsConstant(0.0, labels, grid, kwargs)
  }

  /** `msds_ones(labels, shape, **kwargs)`. */
  function MsdsOnes(labels: seq<string>, grid: seq<real>, kwargs: Settings): (msds: MultiSpectralDistributions)
    ensures msds == MsdsConstant(1.0, labels, grid, kwargs)
    ensures forall i, j :: 0 <= i < |grid| && 0 <= j < |labels| ==> msds.values[i][j] == 1.0
  {
    MsdsConstant(1.0, labels, grid, kwargs)
  }

  /** A function evaluated at every wavelength of the grid, in grid order. */
  function Tabulate(grid: seq<real>, f: real -> real): (r: seq<real>)
    ensures |r| == |grid| && forall i :: 0 <= i < |grid| ==> r[i] == f(grid[i])
  {
    seq(|grid|, i requires 0 <= i < |grid| => f(grid[i]))
  }

  /** `x ** 2`. */
  function Square(x: real): (r: real)
    ensures r >= 0.0
  {
    x * x
  }

  /** The normal-form gaussian at wavelength `w`,
      exp(-(w - mu)^2 / (2 sigma^2)), written as exp(-z^2 / 2) over the
      standard score z = (w - mu) / sigma. */
  function GaussianAt(m: Transcendentals, mu: real, sigma: real, w: real): real
    requires sigma != 0.0
  {
    m.exp(-Square((w - mu) / sigma) / 2.0)
  }

  /** The gaussian takes the value exp(0) at its mean, its maximum, and is
      symmetric about the mean. */
  lemma GaussianPeakAndSymmetry(m: Transcendentals, mu: real, sigma: real, d: real)
    requires sigma != 0.0
    ensures GaussianAt(m, mu, sigma, mu) == m.exp(0.0)
    ensures GaussianAt(m, mu, sigma, mu + d) == GaussianAt(m, mu, sigma, mu - d)
  {
    assert (mu - mu) / sigma == 0.0;
    assert Square(0.0) == 0.0;
    assert (mu - d - mu) / sigma == -((mu + d - mu) / sigma);
    assert Square((mu - d - mu) / sigma) == Square((mu + d - mu) / sigma);
  }

  /** At `k` standard deviations from the mean the gaussian is
      exp(-k^2 / 2), whatever sigma is: one standard deviation below the
      mean it is exp(-1/2). */
  lemma GaussianAtDeviations(m: Transcendentals, mu: real, sigma: real, k: real)
    requires sigma != 0.0
    ensures GaussianAt(m, mu, sigma, mu + k * sigma) == m.exp(-Square(k) / 2.0)
    ensures GaussianAt(m, mu, sigma, mu - sigma) == m.exp(-0.5)
  {
    assert (mu + k * sigma - mu) / sigma == k;
    assert (mu - sigma - mu) / sigma == -1.0;
    assert Square(-1.0) == 1.0;
  }

  /** `sd_gaussian_normal(mu, sigma, shape, **kwargs)`. */
  function SdGaussianNormal(m: Transcendentals, mu: real, sigma: real, grid: seq<real>, kwargs: Settings): (sd: SpectralDistribution)
    requires sigma != 0.0
    ensures sd.wavelengths == grid && |sd.values| == |grid|
    ensures forall i :: 0 <= i < |grid| ==> sd.values[i] == GaussianAt(m, mu, sigma, grid[i])
    ensures sd.settings == Update(map["name" := Name(GaussianNormalName(mu, sigma))], kwargs)
  {
    SpectralDistribution(grid, Tabulate(grid, w => GaussianAt(m, mu, sigma, w)),
      Update(map["name" := Name(GaussianNormalName(mu, sigma))], kwargs))
  }

  /** The standard deviation of the gaussian whose full width at half
      maximum is `fwhm`: fwhm / (2 sqrt(2 ln 2)). */
  function FwhmToSigma(m: Transcendentals, fwhm: real): (sigma: real)
    requires m.sqrt(2.0 * m.ln(2.0)) != 0.0
    ensures fwhm != 0.0 ==> sigma != 0.0
  {
    fwhm / (2.0 * m.sqrt(2.0 * m.ln(2.0)))
  }

  /** What the width means: when sqrt(2 ln 2) squares to 2 ln 2, the
      gaussian of full width at half maximum `fwhm` is exp(-ln 2) (one half)
      at half the width on either side of the peak, and exp(-4 ln 2) (one
      sixteenth) a full width below it. */
  lemma FwhmHalfMaximum(m: Transcendentals, peak: real, fwhm: real)
    requires fwhm != 0.0 && m.sqrt(2.0 * m.ln(2.0)) != 0.0
    requires Square(m.sqrt(2.0 * m.ln(2.0))) == 2.0 * m.ln(2.0)
    ensures GaussianAt(m, peak, FwhmToSigma(m, fwhm), peak + fwhm / 2.0) == m.exp(-m.ln(2.0))
    ensures GaussianAt(m, peak, FwhmToSigma(m, fwhm), peak - fwhm / 2.0) == m.exp(-m.ln(2.0))
    ensures GaussianAt(m, peak, FwhmToSigma(m, fwhm), peak - fwhm) == m.exp(-4.0 * m.ln(2.0))
  {
    var s := m.sqrt(2.0 * m.ln(2.0));
    var sigma := FwhmToSigma(m, fwhm);
    assert (peak + fwhm / 2.0 - peak) / sigma == s;
    assert (peak - fwhm / 2.0 - peak) / sigma == -s;
    assert Square(-s) == Square(s);
    assert (peak - fwhm - peak) / sigma == -2.0 * s;
    assert Square(-2.0 * s) == 4.0 * Square(s);
  }

  /** `sd_gaussian_fwhm(peak_wavelength, fwhm, shape, **kwargs)`: the normal
      form with the standard deviation derived from the width. */
  function SdGaussianFwhm(m: Transcendentals, peak: real, fwhm: real, grid: seq<real>, kwargs: Settings): (sd: SpectralDistribution)
    requires fwhm != 0.0 && m.sqrt(2.0 * m.ln(2.0)) != 0.0
    ensures sd.wavelengths == grid && |sd.values| == |grid|
    ensures forall i :: 0 <= i < |grid| ==> sd.values[i] == GaussianAt(m, peak, FwhmToSigma(m, fwhm), grid[i])
    ensures sd.settings == Update(map["name" := Name(GaussianFwhmName(peak, fwhm))], kwargs)
  {
    var sigma := FwhmToSigma(m, fwhm);
    SpectralDistribution(grid, Tabulate(grid, w => GaussianAt(m, peak, sigma, w)),
      Update(map["name" := Name(GaussianFwhmName(peak, fwhm))], kwargs))
  }

  /** `g ** 5`. */
  function Pow5(g: real): real
  {
    g * g * g * g * g
  }

  /** The Ohno (2005) single LED at wavelength `w`: with
      g = exp(-((w - peak) / halfWidth)^2), the blend (g + 2 g^5) / 3. */
  function LedAt(m: Transcendentals, peak: real, halfWidth: real, w: real): real
    requires halfWidth != 0.0
  {
    var g := m.exp(-Square((w - peak) / halfWidth));
    (g + 2.0 * Pow5(g)) / 3.0
  }

  /** The LED is 1 at its peak wavelength (there g = exp(0) = 1 and the
      blend is (1 + 2) / 3) and symmetric about it. */
  lemma LedPeakAndSymmetry(m: Transcendentals, peak: real, halfWidth: real, d: real)
    requires halfWidth != 0.0 && m.exp(0.0) == 1.0
    ensures LedAt(m, peak, halfWidth, peak) == 1.0
    ensures LedAt(m, peak, halfWidth, peak + d) == LedAt(m, peak, halfWidth, peak - d)
  {
    assert (peak - peak) / halfWidth == 0.0;
    assert Square(0.0) == 0.0;
    assert Pow5(1.0) == 1.0;
    assert (peak - d - peak) / halfWidth == -((peak + d - peak) / halfWidth);
    assert Square((peak - d - peak) / halfWidth) == Square((peak + d - peak) / halfWidth);
  }

  /** On (0, 1] the fifth power is positive and no larger than its base. */
  lemma Pow5Bounds(g: real)
    requires 0.0 < g <= 1.0
    ensures 0.0 < Pow5(g) <= g
  {
    assert g - g * g == g * (1.0 - g);
    assert 0.0 < g * g <= g;
    assert g * g - g * g * g == g * g * (1.0 - g);
    assert 0.0 < g * g * g <= g * g;
    assert g * g * g - g * g * g * g == g * g * g * (1.0 - g);
    assert 0.0 < g * g * g * g <= g * g * g;
    assert g * g * g * g - g * g * g * g * g == g * g * g * g * (1.0 - g);
    assert 0.0 < g * g * g * g * g <= g * g * g * g;
  }

  /** With exp mapping the non-positive reals into (0, 1], every LED value
      lies in (0, 1], so the value 1 at the peak is the maximum. */
  lemma LedBounds(m: Transcendentals, peak: real, halfWidth: real, w: real)
    requires halfWidth != 0.0
    requires forall x :: x <= 0.0 ==> 0.0 < m.exp(x) <= 1.0
    ensures 0.0 < LedAt(m, peak, halfWidth, w) <= 1.0
  {
    var g := m.exp(-Square((w - peak) / halfWidth));
    assert 0.0 < g <= 1.0;
    Pow5Bounds(g);
  }

  /** `sd_single_led_Ohno2005(peak_wavelength, half_spectral_width, shape, **kwargs)`. */
  function SdSingleLedOhno2005(m: Transcendentals, peak: real, halfWidth: real, grid: seq<real>, kwargs: Settings)
    : (sd: SpectralDistribution)
    requires halfWidth != 0.0
    ensures sd.wavelengths == grid && |sd.values| == |grid|
    ensures forall i :: 0 <= i < |grid| ==> sd.values[i] == LedAt(m, peak, halfWidth, grid[i])
    ensures sd.settings == Update(map["name" := Name(SingleLedName(peak, halfWidth))], kwargs)
  {
    SpectralDistribution(grid, Tabulate(grid, w => LedAt(m, peak, halfWidth, w)),
      Update(map["name" := Name(SingleLedName(peak, halfWidth))], kwargs))
  }

  // Multi LED

  /** `concatenate((a,) * copies)`. */
  function Tile(a: seq<real>, copies: nat): (r: seq<real>)
    ensures |r| == |a| * copies
  {
    if copies == 0 then [] else a + Tile(a, copies - 1)
  }

  /** `np.resize(a, n)`: enough copies of `a` laid end to end, cut to `n`
      elements; an empty `a` gives `n` zeros. */
  function Resize(a: seq<real>, n: nat): (r: seq<real>)
    ensures |r| == n
  {
    if |a| == 0 || n == 0 then Full(n, 0.0)
    else
      var copies := (n + |a| - 1) / |a|;
      assert |a| * copies >= n by {
        CeilingCovers(n, |a|);
      }
      Tile(a, copies)[..n]
  }

  lemma CeilingCovers(n: nat, k: nat)
    requires k > 0
    ensures k * ((n + k - 1) / k) >= n
  {
    var q, r := (n + k - 1) / k, (n + k - 1) % k;
    assert n + k - 1 == k * q + r;
  }

  /** Shifting by one period does not change the remainder. */
  lemma ModShift(i: nat, k: nat)
    requires 0 < k <= i
    ensures (i - k) % k == i % k
  {
    var q, r := (i - k) / k, (i - k) % k;
    assert i == k * (q + 1) + r && 0 <= r < k;
    ModUnique(i, k, q + 1, r);
  }

  lemma MulMono(k: nat, d: int)
    requires d >= 1
    ensures k * d >= k
  {
    var e := d - 1;
    assert k * d == k * e + k;
  }

  /** The remainder is the unique one: a decomposition i = k q + r with
      0 <= r < k has r == i % k. */
  lemma ModUnique(i: nat, k: nat, q: int, r: int)
    requires k > 0 && i == k * q + r && 0 <= r < k
    ensures i % k == r
  {
    var q', r' := i / k, i % k;
    assert i == k * q' + r';
    assert k * (q - q') == r' - r && k * (q' - q) == r - r';
    if q < q' {
      MulMono(k, q' - q);
    } else if q > q' {
      MulMono(k, q - q');
    }
  }

  lemma {:induction false} TileAt(a: seq<real>, copies: nat, i: nat)
    requires |a| > 0 && i < |a| * copies
    ensures Tile(a, copies)[i] == a[i % |a|]
  {
    assert copies > 0;
    var rest := Tile(a, copies - 1);
    assert Tile(a, copies) == a + rest;
    if i < |a| {
      ModUnique(i, |a|, 0, i);
    } else {
      assert |rest| == |a| * copies - |a|;
      TileAt(a, copies - 1, i - |a|);
      ModShift(i, |a|);
    }
  }

  /** Resizing is cyclic: element `i` of the result is element `i mod |a|`
      of `a`, and an empty `a` resizes to zeros. */
  lemma ResizeAt(a: seq<real>, n: nat, i: nat)
    requires i < n
    ensures |a| > 0 ==> Resize(a, n)[i] == a[i % |a|]
    ensures |a| == 0 ==> Resize(a, n)[i] == 0.0
  {
    if |a| > 0 {
      var copies := (n + |a| - 1) / |a|;
      CeilingCovers(n, |a|);
      TileAt(a, copies, i);
    }
  }

  /** The power ratios used for `n` peaks: all ones when none are given,
      the given ones resized otherwise. */
  function PowerRatios(ratios: Option<seq<real>>, n: nat): (r: seq<real>)
    ensures |r| == n
    ensures ratios.None? ==> forall i :: 0 <= i < n ==> r[i] == 1.0
  {
    if ratios.None? then Full(n, 1.0) else Resize(ratios.value, n)
  }

  /** Nonzero half widths, resized to the number of peaks, stay nonzero. */
  lemma ResizedWidthsNonZero(halfWidths: seq<real>, n: nat)
    requires n > 0 ==> |halfWidths| > 0
    requires forall i :: 0 <= i < |halfWidths| ==> halfWidths[i] != 0.0
    ensures forall i :: 0 <= i < n ==> Resize(halfWidths, n)[i] != 0.0
  {
    forall i | 0 <= i < n ensures Resize(halfWidths, n)[i] != 0.0 {
      ResizeAt(halfWidths, n, i);
    }
  }

  ghost predicate NonZero(s: seq<real>)
  {
    forall i :: 0 <= i < |s| ==> s[i] != 0.0
  }

  /** The multi-LED value at `w`: starting from 0, each LED scaled by its
      power ratio is added in peak order. */
  function Superposition(m: Transcendentals, peaks: seq<real>, halfWidths: seq<real>, ratios: seq<real>, w: real): real
    requires |halfWidths| == |peaks| && |ratios| == |peaks| && NonZero(halfWidths)
    decreases |peaks|
  {
    if |peaks| == 0 then 0.0
    else
      var k := |peaks| - 1;
      Superposition(m, peaks[..k], halfWidths[..k], ratios[..k], w) + Contribution(m, peaks[k], halfWidths[k], ratios[k], w)
  }

  /** One LED's share of the superposition: its value scaled by its power
      ratio. */
  function Contribution(m: Transcendentals, peak: real, halfWidth: real, ratio: real, w: real): real
    requires halfWidth != 0.0
  {
    LedAt(m, peak, halfWidth, w) * ratio
  }

  /** `sd * k` (values scaled, the rest kept). */
  function Scaled(sd: SpectralDistribution, k: real): (r: SpectralDistribution)
    ensures r.wavelengths == sd.wavelengths && r.settings == sd.settings && |r.values| == |sd.values|
    ensures forall i :: 0 <= i < |sd.values| ==> r.values[i] == sd.values[i] * k
  {
    sd.(values := seq(|sd.values|, i requires 0 <= i < |sd.values| => sd.values[i] * k))
  }

  /** `sd += other` for two tables over the same grid: values added
      wavelength by wavelength, the left table's name and settings kept. */
  function Added(sd: SpectralDistribution, other: SpectralDistribution): (r: SpectralDistribution)
    requires other.wavelengths == sd.wavelengths && |sd.values| == |other.values|
    ensures r.wavelengths == sd.wavelengths && r.settings == sd.settings && |r.values| == |sd.values|
    ensures forall i :: 0 <= i < |sd.values| ==> r.values[i] == sd.values[i] + other.values[i]
  {
    sd.(values := seq(|sd.values|, i requires 0 <= i < |sd.values| => sd.values[i] + other.values[i]))
  }

  /** The table the multi-LED loop holds after the given peaks: the zero
      table with each LED, scaled by its ratio, added in peak order. */
  function Accumulated(m: Transcendentals, peaks: seq<real>, widths: seq<real>, powers: seq<real>,
                       grid: seq<real>, kwargs: Settings): (r: SpectralDistribution)
    requires |widths| == |peaks| && |powers| == |peaks| && NonZero(widths)
    ensures r.wavelengths == grid && |r.values| == |grid| && r.settings == SdZeros(grid, map[]).settings
    decreases |peaks|
  {
    if |peaks| == 0 then SdZeros(grid, map[])
    else
      var k := |peaks| - 1;
      var led := SdSingleLedOhno2005(m, peaks[k], widths[k], grid, kwargs);
      Added(Accumulated(m, peaks[..k], widths[..k], powers[..k], grid, kwargs), Scaled(led, powers[k]))
  }

  /** The accumulated table holds, at every wavelength, the superposition of
      the LEDs added so far. */
  lemma {:induction false} AccumulatedIsSuperposition(m: Transcendentals, peaks: seq<real>, widths: seq<real>,
                                                      powers: seq<real>, grid: seq<real>, kwargs: Settings)
    requires |widths| == |peaks| && |powers| == |peaks| && NonZero(widths)
    ensures forall j :: 0 <= j < |grid| ==>
      Accumulated(m, peaks, widths, powers, grid, kwargs).values[j] == Superposition(m, peaks, widths, powers, grid[j])
    decreases |peaks|
  {
    if |peaks| > 0 {
      var k := |peaks| - 1;
      assert NonZero(widths[..k]);
      AccumulatedIsSuperposition(m, peaks[..k], widths[..k], powers[..k], grid, kwargs);
    }
  }

  /** One turn of the multi-LED loop: the table after one more peak is the
      table before it plus that peak's LED scaled by its ratio. */
  lemma AccumulatedStep(m: Transcendentals, peaks: seq<real>, widths: seq<real>, powers: seq<real>, i: nat,
                        grid: seq<real>, kwargs: Settings)
    requires |widths| == |peaks| && |powers| == |peaks| && NonZero(widths) && i < |peaks|
    ensures NonZero(widths[..i]) && NonZero(widths[..i + 1]) && widths[i] != 0.0
    ensures Accumulated(m, peaks[..i + 1], widths[..i + 1], powers[..i + 1], grid, kwargs)
      == Added(Accumulated(m, peaks[..i], widths[..i], powers[..i], grid, kwargs),
               Scaled(SdSingleLedOhno2005(m, peaks[i], widths[i], grid, kwargs), powers[i]))
  {
    assert peaks[..i + 1][..i] == peaks[..i] && widths[..i + 1][..i] == widths[..i];
    assert powers[..i + 1][..i] == powers[..i];
  }

  /** `sd_multi_leds_Ohno2005(peak_wavelengths, half_spectral_widths,
      peak_power_ratios, shape, **kwargs)`: widths and ratios resized to the
      peaks, a zero table, each LED scaled by its ratio added to it in peak
      order, and the name set from the three lists.  The LEDs are
      tabulated on the accumulator's own grid. */
  method SdMultiLedsOhno2005(m: Transcendentals, peaks: seq<real>, halfWidths: seq<real>, ratios: Option<seq<real>>,
                             grid: seq<real>, kwargs: Settings)
    returns (sd: SpectralDistribution)
    requires NonZero(Resize(halfWidths, |peaks|))
    ensures sd.wavelengths == grid && |sd.values| == |grid|
    ensures forall j :: 0 <= j < |grid| ==>
      sd.values[j] == Superposition(m, peaks, Resize(halfWidths, |peaks|), PowerRatios(ratios, |peaks|), grid[j])
    ensures sd.settings == SdZeros(grid, map[]).settings["name" :=
      Name(MultiLedsName(peaks, Resize(halfWidths, |peaks|), PowerRatios(ratios, |peaks|)))]
  {
    var widths := Resize(halfWidths, |peaks|);
    var powers := PowerRatios(ratios, |peaks|);
    sd := SdZeros(grid, map[]);
    var i := 0;
    while i < |peaks|
      invariant 0 <= i <= |peaks| && NonZero(widths[..i])
      invariant sd == Accumulated(m, peaks[..i], widths[..i], powers[..i], grid, kwargs)
    {
      var led := SdSingleLedOhno2005(m, peaks[i], widths[i], grid, kwargs);
      AccumulatedStep(m, peaks, widths, powers, i, grid, kwargs);
      sd := Added(sd, Scaled(led, powers[i]));
      i := i + 1;
    }
    assert peaks[..i] == peaks && widths[..i] == widths && powers[..i] == powers;
    AccumulatedIsSuperposition(m, peaks, widths, powers, grid, kwargs);
    sd := sd.(settings := sd.settings["name" := Name(MultiLedsName(peaks, widths, powers))]);
  }

  /** The peak power ratios summed: the most the superposition can reach. */
  function Sum(s: seq<real>): real
    decreases |s|
  {
    if |s| == 0 then 0.0 else Sum(s[..|s| - 1]) + s[|s| - 1]
  }

  /** A single LED scaled by a non-negative ratio lies between 0 and the
      ratio. */
  lemma ScaledLedBounds(m: Transcendentals, peak: real, halfWidth: real, ratio: real, w: real)
    requires halfWidth != 0.0 && ratio >= 0.0
    requires forall x :: x <= 0.0 ==> 0.0 < m.exp(x) <= 1.0
    ensures 0.0 <= Contribution(m, peak, halfWidth, ratio, w) <= ratio
  {
    LedBounds(m, peak, halfWidth, w);
    assert ratio - LedAt(m, peak, halfWidth, w) * ratio == (1.0 - LedAt(m, peak, halfWidth, w)) * ratio;
  }

  /** With non-negative power ratios the multi-LED value at every wavelength
      lies between 0 and the sum of the ratios. */
  lemma {:induction false} SuperpositionBounds(m: Transcendentals, peaks: seq<real>, halfWidths: seq<real>,
                                               ratios: seq<real>, w: real)
    requires |halfWidths| == |peaks| && |ratios| == |peaks| && NonZero(halfWidths)
    requires forall i :: 0 <= i < |ratios| ==> ratios[i] >= 0.0
    requires forall x :: x <= 0.0 ==> 0.0 < m.exp(x) <= 1.0
    ensures 0.0 <= Superposition(m, peaks, halfWidths, ratios, w) <= Sum(ratios)
    decreases |peaks|
  {
    if |peaks| > 0 {
      var k := |peaks| - 1;
      assert NonZero(halfWidths[..k]);
      assert forall i :: 0 <= i < k ==> ratios[..k][i] >= 0.0;
      SuperpositionBounds(m, peaks[..k], halfWidths[..k], ratios[..k], w);
      ScaledLedBounds(m, peaks[k], halfWidths[k], ratios[k], w);
      assert Sum(ratios) == Sum(ratios[..k]) + ratios[k];
    }
  }

  /** One peak with the default power ratio is the single LED of that peak,
      with the first of the given half widths. */
  lemma SinglePeakIsSingleLed(m: Transcendentals, peak: real, halfWidths: seq<real>, w: real)
    requires |halfWidths| > 0 && NonZero(halfWidths)
    ensures NonZero(Resize(halfWidths, 1))
    ensures Superposition(m, [peak], Resize(halfWidths, 1), PowerRatios(None, 1), w) == LedAt(m, peak, halfWidths[0], w)
  {
    ResizeAt(halfWidths, 1, 0);
    assert Resize(halfWidths, 1) == [halfWidths[0]];
    assert [peak][..0] == [];
  }

  // Dispatchers

  /** The registered gaussian methods, `SD_GAUSSIAN_METHODS`. */
  const GAUSSIAN_METHODS: seq<string> := ["Normal", "FWHM"]

  /** The registered single LED methods, `SD_SINGLE_LED_METHODS`. */
  const SINGLE_LED_METHODS: seq<string> := ["Ohno 2005"]

  /** The registered multi LED methods, `SD_MULTI_LEDS_METHODS`. */
  const MULTI_LEDS_METHODS: seq<string> := ["Ohno 2005"]

  /** The gaussian method keys as the registry matches them, whatever their
      case. */
  lemma GaussianKeys()
    ensures LowerAll(GAUSSIAN_METHODS) == ["normal", "fwhm"]
  {
    assert Lower("Normal") == "normal" && Lower("FWHM") == "fwhm";
  }

  /** The single LED method key as the registry matches it. */
  lemma SingleLedKeys()
    ensures LowerAll(SINGLE_LED_METHODS) == ["ohno 2005"]
  {
    assert Lower("Ohno 2005") == "ohno 2005";
  }

  /** The multi LED method key as the registry matches it. */
  lemma MultiLedsKeys()
    ensures LowerAll(MULTI_LEDS_METHODS) == ["ohno 2005"]
  {
    assert Lower("Ohno 2005") == "ohno 2005";
  }

  /** `sd_gaussian(mu_peak_wavelength, sigma_fwhm, shape, method, **kwargs)`:
      the method name, matched without regard to case, selects the normal
      or the full-width generator; any other name is an error naming the
      registered methods. */
  function SdGaussian(m: Transcendentals, muPeak: real, sigmaFwhm: real, grid: seq<real>, methodName: string,
                      kwargs: Settings): (r: Result<SpectralDistribution>)
    requires Lower(methodName) == "normal" || Lower(methodName) == "fwhm" ==> sigmaFwhm != 0.0
    requires Lower(methodName) == "fwhm" ==> m.sqrt(2.0 * m.ln(2.0)) != 0.0
    ensures r.Success? <==> Lower(methodName) == "normal" || Lower(methodName) == "fwhm"
    ensures Lower(methodName) == "normal" ==> r == Success(SdGaussianNormal(m, muPeak, sigmaFwhm, grid, kwargs))
    ensures Lower(methodName) == "fwhm" ==> r == Success(SdGaussianFwhm(m, muPeak, sigmaFwhm, grid, kwargs))
    ensures r.Failure? ==> r.error == InvalidMethod(methodName, GAUSSIAN_METHODS)
  {
    GaussianKeys();
    match ValidateMethod(methodName, GAUSSIAN_METHODS)
    case Failure(e) => Failure(e)
    case Success(key) =>
      if key == "normal" then Success(SdGaussianNormal(m, muPeak, sigmaFwhm, grid, kwargs))
      else Success(SdGaussianFwhm(m, muPeak, sigmaFwhm, grid, kwargs))
  }

  /** `sd_single_led(peak_wavelength, shape, method, **kwargs)` with the
      half width the keyword arguments must carry. */
  function SdSingleLed(m: Transcendentals, peak: real, halfWidth: real, grid: seq<real>, methodName: string,
                       kwargs: Settings): (r: Result<SpectralDistribution>)
    requires Lower(methodName) == "ohno 2005" ==> halfWidth != 0.0
    ensures r.Success? <==> Lower(methodName) == "ohno 2005"
    ensures r.Success? ==> r.value == SdSingleLedOhno2005(m, peak, halfWidth, grid, kwargs)
    ensures r.Failure? ==> r.error == InvalidMethod(methodName, SINGLE_LED_METHODS)
  {
    SingleLedKeys();
    match ValidateMethod(methodName, SINGLE_LED_METHODS)
    case Failure(e) => Failure(e)
    case Success(_) => Success(SdSingleLedOhno2005(m, peak, halfWidth, grid, kwargs))
  }

  /** `sd_multi_leds(peak_wavelengths, shape, method, **kwargs)` with the
      half widths and power ratios the keyword arguments carry. */
  method SdMultiLeds(m: Transcendentals, peaks: seq<real>, halfWidths: seq<real>, ratios: Option<seq<real>>,
                     grid: seq<real>, methodName: string, kwargs: Settings)
    returns (r: Result<SpectralDistribution>)
    requires Lower(methodName) == "ohno 2005" ==> NonZero(Resize(halfWidths, |peaks|))
    ensures r.Success? <==> Lower(methodName) == "ohno 2005"
    ensures r.Failure? ==> r.error == InvalidMethod(methodName, MULTI_LEDS_METHODS)
    ensures r.Success? ==> r.value.wavelengths == grid && |r.value.values| == |grid|
    ensures r.Success? ==> forall j :: 0 <= j < |grid| ==>
      r.value.values[j] == Superposition(m, peaks, Resize(halfWidths, |peaks|), PowerRatios(ratios, |peaks|), grid[j])
    ensures r.Success? ==> r.value.settings == SdZeros(grid, map[]).settings["name" :=
      Name(MultiLedsName(peaks, Resize(halfWidths, |peaks|), PowerRatios(ratios, |peaks|)))]
  {
    MultiLedsKeys();
    var key := ValidateMethod(methodName, MULTI_LEDS_METHODS);
    if key.Failure? {
      return Failure(key.error);
    }
    var sd := SdMultiLedsOhno2005(m, peaks, halfWidths, ratios, grid, kwargs);
    return Success(sd);
  }

  /** The documented gaussian calls: `sd_gaussian(555, 25)` is exp(-1/2)
      at 530, 25 below its peak; with the "FWHM" method (in any case) it is
      exp(-4 ln 2), one sixteenth, there; an unregistered method fails. */
  lemma GaussianDocumentedExamples(m: Transcendentals, grid: seq<real>, i: nat, kwargs: Settings)
    requires i < |grid| && grid[i] == 530.0
    requires m.sqrt(2.0 * m.ln(2.0)) != 0.0 && Square(m.sqrt(2.0 * m.ln(2.0))) == 2.0 * m.ln(2.0)
    ensures SdGaussian(m, 555.0, 25.0, grid, "Normal", kwargs).Success?
    ensures SdGaussian(m, 555.0, 25.0, grid, "Normal", kwargs).value.values[i] == m.exp(-0.5)
    ensures Lower("fwhm") == "fwhm" && Lower("FWHM") == "fwhm"
    ensures SdGaussian(m, 555.0, 25.0, grid, "FWHM", kwargs).Success?
    ensures SdGaussian(m, 555.0, 25.0, grid, "FWHM", kwargs).value.values[i] == m.exp(-4.0 * m.ln(2.0))
    ensures SdGaussian(m, 555.0, 25.0, grid, "fwhm", kwargs) == SdGaussian(m, 555.0, 25.0, grid, "FWHM", kwargs)
    ensures SdGaussian(m, 555.0, 25.0, grid, "Cubic", kwargs) == Failure(InvalidMethod("Cubic", GAUSSIAN_METHODS))
  {
    assert Lower("Normal") == "normal" && Lower("FWHM") == "fwhm" && Lower("fwhm") == "fwhm";
    assert Lower("Cubic") == "cubic";
    GaussianAtDeviations(m, 555.0, 25.0, 0.0);
    FwhmHalfMaximum(m, 555.0, 25.0);
  }

  /** The documented single LED call: `sd_single_led(555, 25)` is 1 at 555,
      and an unregistered method fails. */
  lemma SingleLedDocumentedExample(m: Transcendentals, grid: seq<real>, j: nat, kwargs: Settings)
    requires j < |grid| && grid[j] == 555.0
    requires m.exp(0.0) == 1.0
    ensures SdSingleLed(m, 555.0, 25.0, grid, "Ohno 2005", kwargs).Success?
    ensures SdSingleLed(m, 555.0, 25.0, grid, "Ohno 2005", kwargs).value.values[j] == 1.0
    ensures SdSingleLed(m, 555.0, 25.0, grid, "Cubic", kwargs) == Failure(InvalidMethod("Cubic", SINGLE_LED_METHODS))
  {
    assert Lower("Ohno 2005") == "ohno 2005" && Lower("Cubic") == "cubic";
    LedPeakAndSymmetry(m, 555.0, 25.0, 0.0);
  }
}
