/** The automatic enhancement heuristic: image metrics, the noise estimate, the
    rules that turn metrics into enhancement parameters, and the layout of the
    preview grid that shows several parameter variations side by side. */
module AutoEnhance {
  import opened Common
  import opened Imaging
  import opened Enhancer

  // ---------------------------------------------------------------------------
  // Metrics
  // ---------------------------------------------------------------------------

  /** The statistics `analyze_image` takes from the imaging library, each
      normalised to 0..1 by the program. */
  datatype Stats = Stats(
    brightness: real,   // mean gray level
    contrast: real,     // standard deviation of the gray levels
    sharpness: real,    // mean of the edge map
    saturation: real,   // summed channel standard deviations
    rAvg: real, gAvg: real, bAvg: real)

  /** The metrics dictionary of `analyze_image`. The noise level is `None`
      where the program computes NaN. */
  datatype Metrics = Metrics(
    brightness: real,
    contrast: real,
    sharpness: real,
    saturation: real,
    noise: Option<real>,
    skewed: bool,
    rAvg: real, gAvg: real, bAvg: real)

  // ---------------------------------------------------------------------------
  // estimate_noise
  // ---------------------------------------------------------------------------

  /** The difference of two 8-bit samples as the program takes it: exactly, or
      (as numpy subtracts two `uint8` arrays) modulo 256. */
  function SampleDiff(a: int, b: int, wrap: bool): (r: int)
    ensures !wrap ==> r == Abs(a - b)
    ensures wrap ==> 0 <= r < 256 && (r - (a - b)) % 256 == 0
  {
    if wrap then (a - b) % 256 else Abs(a - b)
  }

  /** Sum over the first `n` columns of one row of the diagonal differences
      `lower[j] - upper[j]`. */
  function RowDiffSum(upper: seq<int>, lower: seq<int>, n: nat, wrap: bool): (r: int)
    requires n <= |upper| && n <= |lower|
    ensures r >= 0
  {
    if n == 0 then 0 else RowDiffSum(upper, lower, n - 1, wrap) + SampleDiff(lower[n - 1], upper[n - 1], wrap)
  }

  /** Sum of `center[1:, 1:] - center[:-1, :-1]` over its first `m` rows and `n`
      columns, where `center` is the image with a 5-pixel border cropped. */
  function GridDiffSum(g: Image, m: nat, n: nat, wrap: bool): (r: int)
    requires g.Valid() && m + 11 <= g.height && n + 11 <= g.width
    ensures r >= 0
  {
    if m == 0 then 0
    else GridDiffSum(g, m - 1, n, wrap) + RowDiffSum(g.pixels[m + 4][5..], g.pixels[m + 5][6..], n, wrap)
  }

  /** The mean diagonal difference over the cropped centre, when that centre has
      room for at least one difference. */
  function MeanDiff(g: Image, wrap: bool): (r: real)
    requires g.Valid() && g.height > 11 && g.width > 11
    ensures r >= 0.0
  {
    var m, n := g.height - 11, g.width - 11;
    GridDiffSum(g, m, n, wrap) as real / (m * n) as real
  }

  /** `estimate_noise`: 0.1 for images too small to have a cropped centre with a
      diagonal difference in it; otherwise five times the mean absolute diagonal
      difference on the 0..1 scale, capped at 1. */
  function EstimateNoise(gray: Image): (r: real)
    requires gray.Valid()
    ensures 0.0 <= r <= 1.0
    ensures gray.height <= 11 || gray.width <= 11 ==> r == 0.1
  {
    if gray.height > 11 && gray.width > 11 then MinReal(MeanDiff(gray, false) * 5.0 / 255.0, 1.0)
    else 0.1
  }

  /** `estimate_noise` as written: the guard admits an 11-pixel side, whose cropped
      centre has no diagonal difference, so the mean is NaN (`None` here) and
      `min(nan, 1.0)` is NaN; and the differences wrap modulo 256. */
  function EstimateNoiseAsWritten(gray: Image): (r: Option<real>)
    requires gray.Valid()
    ensures r.None? <==> gray.height > 10 && gray.width > 10 && (gray.height == 11 || gray.width == 11)
    ensures r.Some? ==> 0.0 <= r.value <= 1.0
    ensures gray.height <= 10 || gray.width <= 10 ==> r == Some(0.1)
  {
    if gray.height > 10 && gray.width > 10 then
      if gray.height == 11 || gray.width == 11 then None
      else Some(MinReal(MeanDiff(gray, true) * 5.0 / 255.0, 1.0))
    else Some(0.1)
  }

  /** The photographic negative of a grayscale image. */
  function Invert(g: Image): (r: Image)
    ensures r.width == g.width && r.height == g.height && r.mode == g.mode
    ensures g.Valid() ==> r.Valid()
  {
    g.(pixels := seq(|g.pixels|, i requires 0 <= i < |g.pixels| =>
                   seq(|g.pixels[i]|, j requires 0 <= j < |g.pixels[i]| => 255 - g.pixels[i][j])))
  }

  lemma {:induction false} RowDiffSumInvert(upper: seq<int>, lower: seq<int>, upper': seq<int>, lower': seq<int>, n: nat)
    requires n <= |upper| == |upper'| && n <= |lower| == |lower'|
    requires forall j :: 0 <= j < n ==> upper'[j] == 255 - upper[j] && lower'[j] == 255 - lower[j]
    ensures RowDiffSum(upper', lower', n, false) == RowDiffSum(upper, lower, n, false)
  {
    if n > 0 {
      RowDiffSumInvert(upper, lower, upper', lower', n - 1);
    }
  }

  lemma {:induction false} GridDiffSumInvert(g: Image, m: nat, n: nat)
    requires g.Valid() && m + 11 <= g.height && n + 11 <= g.width
    ensures GridDiffSum(Invert(g), m, n, false) == GridDiffSum(g, m, n, false)
  {
    if m > 0 {
      GridDiffSumInvert(g, m - 1, n);
      var h := Invert(g);
      RowDiffSumInvert(g.pixels[m + 4][5..], g.pixels[m + 5][6..], h.pixels[m + 4][5..], h.pixels[m + 5][6..], n);
    }
  }

  /** The corrected noise estimate looks only at absolute differences of
      neighbouring samples, so it does not change when the image is inverted. */
  lemma NoiseInvariantUnderInversion(gray: Image)
    requires gray.Valid()
    ensures EstimateNoise(Invert(gray)) == EstimateNoise(gray)
  {
    if gray.height > 11 && gray.width > 11 {
      GridDiffSumInvert(gray, gray.height - 11, gray.width - 11);
    }
  }

  lemma {:induction false} RowDiffSumFlat(upper: seq<int>, lower: seq<int>, n: nat, wrap: bool)
    requires n <= |upper| && n <= |lower|
    requires forall j :: 0 <= j < n ==> upper[j] == lower[j]
    ensures RowDiffSum(upper, lower, n, wrap) == 0
  {
    if n > 0 {
      RowDiffSumFlat(upper, lower, n - 1, wrap);
    }
  }

  lemma {:induction false} GridDiffSumFlat(g: Image, m: nat, n: nat, v: int, wrap: bool)
    requires g.Valid() && m + 11 <= g.height && n + 11 <= g.width
    requires forall i, j :: 0 <= i < g.height && 0 <= j < g.width ==> g.pixels[i][j] == v
    ensures GridDiffSum(g, m, n, wrap) == 0
  {
    if m > 0 {
      GridDiffSumFlat(g, m - 1, n, v, wrap);
      RowDiffSumFlat(g.pixels[m + 4][5..], g.pixels[m + 5][6..], n, wrap);
    }
  }

  /** An image of one uniform gray level has no noise. */
  lemma UniformImageHasNoNoise(gray: Image, v: int)
    requires gray.Valid() && gray.height > 11 && gray.width > 11
    requires forall i, j :: 0 <= i < gray.height && 0 <= j < gray.width ==> gray.pixels[i][j] == v
    ensures EstimateNoise(gray) == 0.0
  {
    GridDiffSumFlat(gray, gray.height - 11, gray.width - 11, v, false);
  }

  /** A 12x12 black image with a single gray level 1 at row 5, column 5: the one
      diagonal difference of its centre is 0 - 1. */
  function SpeckImage(): (r: Image)
    ensures r.Valid() && r.height == 12 && r.width == 12
  {
    Image(L, 12, 12, seq(12, i => seq(12, j => if i == 5 && j == 5 then 1 else 0)))
  }

  /** On the speck image, the wrapped difference 255 reports maximal noise, while
      the true mean absolute difference gives 5/255. */
  lemma SpeckNoise()
    ensures EstimateNoiseAsWritten(SpeckImage()) == Some(1.0)
    ensures EstimateNoise(SpeckImage()) == 5.0 / 255.0
  {
    var g := SpeckImage();
    assert g.pixels[5][5..][0] == 1 && g.pixels[6][6..][0] == 0;
    assert RowDiffSum(g.pixels[5][5..], g.pixels[6][6..], 1, true) == 255;
    assert RowDiffSum(g.pixels[5][5..], g.pixels[6][6..], 1, false) == 1;
    assert GridDiffSum(g, 1, 1, true) == 255;
    assert GridDiffSum(g, 1, 1, false) == 1;
  }

  /** As written, the estimate is not invariant under inversion: the wrapped
      difference 0 - 1 of the speck image is 255, while its negative has the
      difference 255 - 254 = 1. */
  lemma InversionChangesNoiseAsWritten()
    ensures EstimateNoiseAsWritten(SpeckImage()) == Some(1.0)
    ensures EstimateNoiseAsWritten(Invert(SpeckImage())) == Some(5.0 / 255.0)
  {
    SpeckNoise();
    var g := Invert(SpeckImage());
    assert g.pixels[5][5..][0] == 254 && g.pixels[6][6..][0] == 255;
    assert RowDiffSum(g.pixels[5][5..], g.pixels[6][6..], 1, true) == 1;
    assert GridDiffSum(g, 1, 1, true) == 1;
  }

  /** An 11x11 image passes the size guard but yields NaN as written. */
  lemma ElevenSquareIsNaN()
    ensures EstimateNoiseAsWritten(Image(L, 11, 11, seq(11, i => seq(11, j => 0)))).None?
    ensures EstimateNoise(Image(L, 11, 11, seq(11, i => seq(11, j => 0)))) == 0.1
  {
  }

  // ---------------------------------------------------------------------------
  // analyze_image
  // ---------------------------------------------------------------------------

  /** `analyze_image`: a missing file is a not-found error. A file is converted
      to RGB, but a given picture is only copied, so a picture of a one-band mode
      yields one channel mean where three are unpacked, a ValueError. Otherwise
      the library statistics, the noise estimate (as written) of the grayscale
      version, and `might_be_skewed` fixed at false. */
  function AnalyzeImage(lib: Library, measure: Image -> Stats, disk: map<string, Image>, src: Source): (r: Result<Metrics>)
    requires WellBehaved(lib)
    requires src.Path? ==> src.path in disk ==> disk[src.path].Valid()
    requires src.Picture? ==> src.image.Valid()
    ensures src.Path? && src.path !in disk ==> r == Err(FileNotFound(src.path))
    ensures src.Picture? && src.image.mode != RGB ==> r == Err(NotEnoughValues(3, 1))
    ensures r.Ok? <==> (src.Path? ==> src.path in disk) && (src.Picture? ==> src.image.mode == RGB)
    ensures r.Ok? ==> !r.value.skewed
    ensures r.Ok? ==>
              var img := Load(lib, disk, src).value;
              (r.value.noise.None? <==> img.height > 10 && img.width > 10 && (img.height == 11 || img.width == 11))
    ensures r.Ok? && r.value.noise.Some? ==> 0.0 <= r.value.noise.value <= 1.0
    ensures r.Ok? ==> r.value.noise == EstimateNoiseAsWritten(lib.toGray(Load(lib, disk, src).value))
  {
    match Load(lib, disk, src)
    case Err(e) => Err(e)
    case Ok(img) =>
      if img.mode != RGB then Err(NotEnoughValues(3, 1))
      else
        var s := measure(img);
        var gray := lib.toGray(img);
        Ok(Metrics(s.brightness, s.contrast, s.sharpness, s.saturation,
                   EstimateNoiseAsWritten(gray), false, s.rAvg, s.gAvg, s.bAvg))
  }

  // ---------------------------------------------------------------------------
  // determine_optimal_params
  // ---------------------------------------------------------------------------

  /** Brightness: raised for dark images, lowered for bright ones. */
  function BrightnessRule(b: real): (r: real)
    ensures b < 0.3 ==> 1.0 < r <= 1.5
    ensures b > 0.7 ==> 0.7 <= r < 1.0
    ensures 0.3 <= b <= 0.7 <==> r == 1.0
  {
    if b < 0.3 then MinReal(1.0 + (0.3 - b) * 2.0, 1.5)
    else if b > 0.7 then MaxReal(1.0 - (b - 0.7) * 1.5, 0.7)
    else 1.0
  }

  /** Contrast: raised strongly below 0.15, slightly below 0.25. */
  function ContrastRule(c: real): (r: real)
    ensures c < 0.15 ==> 1.0 < r <= 1.8
    ensures 0.15 <= c < 0.25 ==> r == 1.1
    ensures c >= 0.25 <==> r == 1.0
  {
    if c < 0.15 then MinReal(1.0 + (0.15 - c) * 5.0, 1.8)
    else if c < 0.25 then 1.1
    else 1.0
  }

  /** Sharpness: raised for blurry images, more for very blurry ones. */
  function SharpnessRule(s: real): (r: real)
    ensures 1.0 <= r <= 2.0
    ensures 0.1 <= s < 0.2 ==> 1.0 < r <= 1.5
    ensures s >= 0.2 <==> r == 1.0
  {
    if s < 0.1 then MinReal(1.0 + (0.1 - s) * 10.0, 2.0)
    else if s < 0.2 then MinReal(1.0 + (0.2 - s) * 5.0, 1.5)
    else 1.0
  }

  /** Color: raised only for faded images. */
  function ColorRule(sat: real): (r: real)
    ensures sat < 0.1 ==> 1.0 < r <= 1.5
    ensures sat >= 0.1 <==> r == 1.0
  {
    if sat < 0.1 then MinReal(1.0 + (0.1 - sat) * 3.0, 1.5) else 1.0
  }

  /** The image looks like a black-and-white document with good contrast. */
  predicate BinarizeWanted(m: Metrics) {
    m.contrast > 0.2 && m.saturation < 0.15 &&
    Abs'(m.rAvg - m.gAvg) < 0.1 && Abs'(m.rAvg - m.bAvg) < 0.1 && Abs'(m.gAvg - m.bAvg) < 0.1 &&
    0.4 < m.brightness < 0.7
  }

  function Abs'(x: real): (r: real)
    ensures r >= 0.0 && (r == x || r == -x)
  {
    if x < 0.0 then -x else x
  }

  /** `int(120 + brightness * 50)` for a brightness strictly between 0.4 and 0.7. */
  function ThresholdRule(b: real): (r: int)
    requires 0.4 < b < 0.7
    ensures 140 <= r <= 154
    ensures r as real <= 120.0 + b * 50.0 < r as real + 1.0
  {
    (120.0 + b * 50.0).Floor
  }

  /** `noise_level > 0.3`, which is false for NaN. */
  predicate Noisy(noise: Option<real>) {
    noise.Some? && noise.value > 0.3
  }

  /** The parameters `determine_optimal_params` derives from `m`. */
  function OptimalParams(m: Metrics): Params {
    var d := Default();
    d.(brightness := BrightnessRule(m.brightness),
       contrast := ContrastRule(m.contrast),
       sharpness := SharpnessRule(m.sharpness),
       color := ColorRule(m.saturation),
       denoise := Noisy(m.noise),
       deskew := m.skewed,
       binarize := BinarizeWanted(m),
       binarizeThreshold := if BinarizeWanted(m) then ThresholdRule(m.brightness) else d.binarizeThreshold)
  }

  /** What the rules promise: no resize; denoise, deskew and binarize exactly
      when their conditions hold; a threshold between 140 and 154 when
      binarizing and 128 otherwise; and every multiplier within its cap. */
  lemma OptimalParamsBounds(m: Metrics)
    ensures OptimalParams(m).resizeFactor == None
    ensures OptimalParams(m).denoise <==> m.noise.Some? && m.noise.value > 0.3
    ensures OptimalParams(m).deskew <==> m.skewed
    ensures OptimalParams(m).binarize <==> BinarizeWanted(m)
    ensures OptimalParams(m).binarize ==> 140 <= OptimalParams(m).binarizeThreshold <= 154
    ensures !OptimalParams(m).binarize ==> OptimalParams(m).binarizeThreshold == 128
    ensures 0.7 <= OptimalParams(m).brightness <= 1.5 && 1.0 <= OptimalParams(m).contrast <= 1.8
    ensures 1.0 <= OptimalParams(m).sharpness <= 2.0 && 1.0 <= OptimalParams(m).color <= 1.5
  {
    var _ := BrightnessRule(m.brightness);
    var _ := ContrastRule(m.contrast);
    var _ := ColorRule(m.saturation);
    if BinarizeWanted(m) {
      var _ := ThresholdRule(m.brightness);
    }
  }

  /** `determine_optimal_params`: starts from the defaults and lets each rule
      overwrite its field. */
  method DetermineOptimalParams(m: Metrics) returns (params: Params)
    ensures params == OptimalParams(m)
    ensures params.resizeFactor == None
    ensures params.denoise <==> m.noise.Some? && m.noise.value > 0.3
    ensures params.deskew <==> m.skewed
    ensures params.binarize <==> BinarizeWanted(m)
    ensures params.binarize ==> 140 <= params.binarizeThreshold <= 154
    ensures !params.binarize ==> params.binarizeThreshold == 128
    ensures 0.7 <= params.brightness <= 1.5 && 1.0 <= params.contrast <= 1.8
    ensures 1.0 <= params.sharpness <= 2.0 && 1.0 <= params.color <= 1.5
  {
    params := Default();
    if m.brightness < 0.3 {
      params := params.(brightness := MinReal(1.0 + (0.3 - m.brightness) * 2.0, 1.5));
    } else if m.brightness > 0.7 {
      params := params.(brightness := MaxReal(1.0 - (m.brightness - 0.7) * 1.5, 0.7));
    }
    assert params.brightness == BrightnessRule(m.brightness);
    if m.contrast < 0.15 {
      params := params.(contrast := MinReal(1.0 + (0.15 - m.contrast) * 5.0, 1.8));
    } else if m.contrast < 0.25 {
      params := params.(contrast := 1.1);
    }
    assert params.contrast == ContrastRule(m.contrast);
    if m.sharpness < 0.1 {
      params := params.(sharpness := MinReal(1.0 + (0.1 - m.sharpness) * 10.0, 2.0));
    } else if m.sharpness < 0.2 {
      params := params.(sharpness := MinReal(1.0 + (0.2 - m.sharpness) * 5.0, 1.5));
    }
    assert params.sharpness == SharpnessRule(m.sharpness);
    if m.saturation < 0.1 {
      params := params.(color := MinReal(1.0 + (0.1 - m.saturation) * 3.0, 1.5));
    }
    assert params.color == ColorRule(m.saturation);
    if m.noise.Some? && m.noise.value > 0.3 {
      params := params.(denoise := true);
    }
    if m.skewed {
      params := params.(deskew := true);
    }
    if m.contrast > 0.2 && m.saturation < 0.15 {
      var rg, rb, gb := Abs'(m.rAvg - m.gAvg), Abs'(m.rAvg - m.bAvg), Abs'(m.gAvg - m.bAvg);
      if rg < 0.1 && rb < 0.1 && gb < 0.1 {
        if m.brightness > 0.4 && m.brightness < 0.7 {
          params := params.(binarize := true);
          params := params.(binarizeThreshold := (120.0 + m.brightness * 50.0).Floor);
        }
      }
    }
    OptimalParamsBounds(m);
  }

  /** Automatically chosen parameters never resize, so the enhanced image keeps
      the size of its input; it is bilevel exactly when binarization was chosen. */
  lemma AutoEnhancedShape(lib: Library, img: Image, m: Metrics)
    requires WellBehaved(lib) && img.Valid()
    ensures Enhanced(lib, img, OptimalParams(m)).width == img.width
    ensures Enhanced(lib, img, OptimalParams(m)).height == img.height
    ensures Enhanced(lib, img, OptimalParams(m)).mode == if BinarizeWanted(m) then Bilevel else img.mode
  {
    EnhancedShape(lib, img, OptimalParams(m));
  }

  // ---------------------------------------------------------------------------
  // get_enhancement_preview_grid
  // ---------------------------------------------------------------------------

  /** The side of a grid cell, in pixels. */
  const Thumb: nat := 300

  /** One variation in the grid: its parameters and the top-left corner of its cell. */
  datatype Tile = Tile(params: Params, x: nat, y: nat)

  /** The grid canvas: `cols` by `rows` cells; the original sits at (0, 0). */
  datatype Grid = Grid(cols: nat, rows: nat, width: nat, height: nat, tiles: seq<Tile>)

  /** `min(3, count)` columns for `count` images (the original and the variations). */
  function Columns(count: nat): (c: nat)
    ensures count >= 1 ==> 1 <= c <= 3 && c <= count
    ensures count >= 3 ==> c == 3
  {
    Min(3, count)
  }

  /** `ceil(count / cols)` rows. */
  function Rows(count: nat, cols: nat): (r: nat)
    requires cols >= 1
    ensures r * cols >= count && (r == 0 || (r - 1) * cols < count)
  {
    (count + cols - 1) / cols
  }

  /** The corner of the cell of variation `i`: cell `i + 1` in row-major order. */
  function Corner(i: nat, cols: nat): (nat, nat)
    requires cols >= 1
  {
    (((i + 1) % cols) * Thumb, ((i + 1) / cols) * Thumb)
  }

  /** Every variation's cell lies inside the canvas, no two variations share a
      cell, and none takes the original's cell. */
  lemma CornersPlaced(n: nat, cols: nat, rows: nat)
    requires cols == Columns(n + 1) && rows == Rows(n + 1, cols)
    ensures forall i :: 0 <= i < n ==>
              Corner(i, cols).0 + Thumb <= cols * Thumb && Corner(i, cols).1 + Thumb <= rows * Thumb
    ensures forall i, j :: 0 <= i < j < n ==> Corner(i, cols) != Corner(j, cols)
    ensures forall i :: 0 <= i < n ==> Corner(i, cols) != (0, 0)
  {
    forall i | 0 <= i < n
      ensures Corner(i, cols).0 + Thumb <= cols * Thumb && Corner(i, cols).1 + Thumb <= rows * Thumb
    {
      CellInside(i + 1, cols, rows, n + 1);
    }
    forall i, j | 0 <= i < j < n ensures Corner(i, cols) != Corner(j, cols) {
      CellsDistinct(i + 1, j + 1, cols);
    }
    forall i | 0 <= i < n ensures Corner(i, cols) != (0, 0) {
      CellsDistinct(0, i + 1, cols);
    }
  }

  lemma CellInside(k: nat, c: nat, rows: nat, count: nat)
    requires c >= 1 && k < count && rows * c >= count
    ensures (k % c) * Thumb + Thumb <= c * Thumb
    ensures (k / c) * Thumb + Thumb <= rows * Thumb
  {
    assert k % c + 1 <= c;
    assert (k % c + 1) * Thumb <= c * Thumb;
    assert (k / c) * c <= k < rows * c;
    assert k / c < rows;
    assert (k / c + 1) * Thumb <= rows * Thumb;
  }

  lemma CellsDistinct(k: nat, l: nat, c: nat)
    requires c >= 1 && k < l
    ensures ((k % c) * Thumb, (k / c) * Thumb) != ((l % c) * Thumb, (l / c) * Thumb)
  {
  }

  /** `get_enhancement_preview_grid`: loads the image (a missing file is a
      not-found error), then builds each variation's parameters with
      `EnhancementParams(**variation)` for each given variation, or each
      built-in one when none are given (the first that fails ends the call
      with its error), and places the variation in the next cell. */
  method PreviewGrid(lib: Library, disk: map<string, Image>, src: Source, given: Option<seq<map<string, Value>>>)
    returns (r: Result<Grid>)
    ensures Load(lib, disk, src).Err? ==> r == Err(Load(lib, disk, src).error)
    ensures Load(lib, disk, src).Ok? && r.Err? ==>
              exists k :: 0 <= k < |Variations(given)| && FromDict(Variations(given)[k]).Err? &&
                r.error == FromDict(Variations(given)[k]).error &&
                forall i :: 0 <= i < k ==> FromDict(Variations(given)[i]).Ok?
    ensures r.Ok? <==> Load(lib, disk, src).Ok? && forall i :: 0 <= i < |Variations(given)| ==> FromDict(Variations(given)[i]).Ok?
    ensures r.Ok? ==>
              var count := |Variations(given)| + 1;
              && r.value.cols == Columns(count) && r.value.rows == Rows(count, r.value.cols)
              && r.value.width == r.value.cols * Thumb && r.value.height == r.value.rows * Thumb
              && |r.value.tiles| == |Variations(given)|
              && forall i :: 0 <= i < |Variations(given)| ==>
                   r.value.tiles[i] == Tile(FromDict(Variations(given)[i]).value,
                                            Corner(i, r.value.cols).0, Corner(i, r.value.cols).1)
  {
    var original := Load(lib, disk, src);
    if original.Err? {
      return Err(original.error);
    }
    var variations := Variations(given);
    var count := |variations| + 1;
    var cols := Min(3, count);
    var rows := (count + cols - 1) / cols;
    var tiles: seq<Tile> := [];
    var i := 0;
    while i < |variations|
      invariant 0 <= i <= |variations| && |tiles| == i
      invariant forall k :: 0 <= k < i ==>
                  (FromDict(variations[k]).Ok? &&
                   tiles[k] == Tile(FromDict(variations[k]).value, Corner(k, cols).0, Corner(k, cols).1))
    {
      var params := FromDict(variations[i]);
      if params.Err? {
        return Err(params.error);
      }
      var posX := ((i + 1) % cols) * Thumb;
      var posY := ((i + 1) / cols) * Thumb;
      tiles := tiles + [Tile(params.value, posX, posY)];
      i := i + 1;
    }
    r := Ok(Grid(cols, rows, cols * Thumb, rows * Thumb, tiles));
  }

  /** The variations used: the given ones, or the built-in ones. */
  function Variations(given: Option<seq<map<string, Value>>>): seq<map<string, Value>> {
    if given.Some? then given.value else DefaultVariations()
  }

  /** The six built-in variations. */
  function DefaultVariations(): seq<map<string, Value>> {
    [ map[KeyName(BrightnessKey) := VNum(1.0), KeyName(ContrastKey) := VNum(1.0), KeyName(SharpnessKey) := VNum(1.0)],
      map[KeyName(BrightnessKey) := VNum(1.2), KeyName(ContrastKey) := VNum(1.2), KeyName(SharpnessKey) := VNum(1.0)],
      map[KeyName(BrightnessKey) := VNum(1.0), KeyName(ContrastKey) := VNum(1.5), KeyName(SharpnessKey) := VNum(1.5)],
      map[KeyName(BrightnessKey) := VNum(0.9), KeyName(ContrastKey) := VNum(1.3), KeyName(SharpnessKey) := VNum(1.2)],
      map[KeyName(BinarizeKey) := VBool(true), KeyName(ThresholdKey) := VInt(128)],
      map[KeyName(DenoiseKey) := VBool(true), KeyName(SharpnessKey) := VNum(1.3)] ]
  }

  /** Every built-in variation is a valid parameter dictionary, and with them the
      grid is 3 by 3 cells. */
  lemma DefaultVariationsDecode()
    ensures forall i :: 0 <= i < |DefaultVariations()| ==> FromDict(DefaultVariations()[i]).Ok?
    ensures Columns(|DefaultVariations()| + 1) == 3 && Rows(|DefaultVariations()| + 1, 3) == 3
  {
    var vs := DefaultVariations();
    forall i | 0 <= i < |vs| ensures FromDict(vs[i]).Ok? {
      FromDictByFields(vs[i]);
    }
  }
}
