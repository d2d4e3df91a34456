/** Images as values, and the imaging library the enhancer calls into.
    The library's filters are foreign floating-point code: the model does not
    compute them but takes them as a record of functions, and states in
    `WellBehaved` the only facts the program relies on (each filter keeps the
    size and mode; a resize produces the requested size; grayscale conversion
    keeps the size and yields 8-bit samples). */
module Imaging {

  /** 'RGB', 'L' (8-bit grayscale) and '1' (bilevel). */
  datatype Mode = RGB | L | Bilevel

  /** A raster: `pixels` holds `height` rows of `width` samples each
      (gray levels for 'L' and '1', a packed colour value for 'RGB'). */
  datatype Image = Image(mode: Mode, width: nat, height: nat, pixels: seq<seq<int>>)
  {
    ghost predicate Valid() {
      |pixels| == height && forall r :: 0 <= r < |pixels| ==> |pixels[r]| == width
    }
  }

  predicate SameShape(a: Image, b: Image) {
    a.width == b.width && a.height == b.height && a.mode == b.mode
  }

  /** Samples of a grayscale raster are bytes. */
  ghost predicate IsGray(img: Image) {
    img.Valid() && img.mode == L &&
    forall r, c :: 0 <= r < img.height && 0 <= c < img.width ==> 0 <= img.pixels[r][c] <= 255
  }

  /** The library operations the program calls. */
  datatype Library = Library(
    resize: (Image, nat, nat) -> Image,   // Image.resize(..., LANCZOS)
    brightness: (Image, real) -> Image,   // ImageEnhance.Brightness(..).enhance
    contrast: (Image, real) -> Image,     // ImageEnhance.Contrast(..).enhance
    color: (Image, real) -> Image,        // ImageEnhance.Color(..).enhance
    sharpness: (Image, real) -> Image,    // ImageEnhance.Sharpness(..).enhance
    median3: Image -> Image,              // filter(ImageFilter.MedianFilter(size=3))
    toGray: Image -> Image,               // convert('L')
    toRgb: Image -> Image                 // convert('RGB')
  )

  ghost predicate WellBehaved(lib: Library) {
    && (forall img: Image, w: nat, h: nat {:trigger lib.resize(img, w, h)} :: img.Valid() ==>
          var out := lib.resize(img, w, h);
          out.Valid() && out.width == w && out.height == h && out.mode == img.mode)
    && (forall img: Image, f: real {:trigger lib.brightness(img, f)} :: img.Valid() ==> lib.brightness(img, f).Valid() && SameShape(lib.brightness(img, f), img))
    && (forall img: Image, f: real {:trigger lib.contrast(img, f)} :: img.Valid() ==> lib.contrast(img, f).Valid() && SameShape(lib.contrast(img, f), img))
    && (forall img: Image, f: real {:trigger lib.color(img, f)} :: img.Valid() ==> lib.color(img, f).Valid() && SameShape(lib.color(img, f), img))
    && (forall img: Image, f: real {:trigger lib.sharpness(img, f)} :: img.Valid() ==> lib.sharpness(img, f).Valid() && SameShape(lib.sharpness(img, f), img))
    && (forall img: Image {:trigger lib.median3(img)} :: img.Valid() ==> lib.median3(img).Valid() && SameShape(lib.median3(img), img))
    && (forall img: Image {:trigger lib.toGray(img)} :: img.Valid() ==>
          IsGray(lib.toGray(img)) && lib.toGray(img).width == img.width && lib.toGray(img).height == img.height)
    && (forall img: Image {:trigger lib.toRgb(img)} :: img.Valid() ==>
          var out := lib.toRgb(img);
          out.Valid() && out.mode == RGB && out.width == img.width && out.height == img.height)
  }

  /** The threshold map of `_binarize_image`: a sample below `threshold`
      becomes 0, every other sample 255. */
  function ThresholdRow(row: seq<int>, threshold: int): (r: seq<int>)
    ensures |r| == |row|
    ensures forall c :: 0 <= c < |row| ==> (r[c] == 0 <==> row[c] < threshold)
    ensures forall c :: 0 <= c < |row| ==> (r[c] == 255 <==> row[c] >= threshold)
  {
    seq(|row|, c requires 0 <= c < |row| => if row[c] < threshold then 0 else 255)
  }

  /** `gray.point(lambda x: 0 if x < threshold else 255, '1')`. */
  function Threshold(gray: Image, threshold: int): (r: Image)
    ensures r.mode == Bilevel && r.width == gray.width && r.height == gray.height
    ensures gray.Valid() ==> r.Valid()
    ensures gray.Valid() ==>
              forall i, c :: 0 <= i < r.height && 0 <= c < r.width ==>
                (r.pixels[i][c] == 0 <==> gray.pixels[i][c] < threshold) &&
                (r.pixels[i][c] == 255 <==> gray.pixels[i][c] >= threshold)
  {
    Image(Bilevel, gray.width, gray.height,
          seq(|gray.pixels|, i requires 0 <= i < |gray.pixels| => ThresholdRow(gray.pixels[i], threshold)))
  }

  /** The set of distinct sample values of an image. */
  ghost function Values(img: Image): set<int>
    requires img.Valid()
  {
    set i, c | 0 <= i < img.height && 0 <= c < img.width :: img.pixels[i][c]
  }

  /** A thresholded image holds at most two distinct values, 0 and 255. */
  lemma ThresholdIsTwoValued(gray: Image, threshold: int)
    requires gray.Valid()
    ensures Values(Threshold(gray, threshold)) <= {0, 255}
    ensures |Values(Threshold(gray, threshold))| <= 2
  {
    var vs := Values(Threshold(gray, threshold));
    assert vs <= {0, 255};
    SubsetCardinality(vs, {0, 255});
  }

  lemma SubsetCardinality(a: set<int>, b: set<int>)
    requires a <= b
    ensures |a| <= |b|
  {
    assert b == a + (b - a);
  }
}
