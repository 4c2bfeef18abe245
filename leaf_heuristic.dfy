/**
 * The client-side "is this a grape leaf?" heuristic (`validateGrapeLeaf` in
 * project/src/App.tsx): a single pass over the decoded RGBA buffer of the
 * image that counts green-dominant pixels, and a strict ratio threshold.
 */
module LeafHeuristic {
  import opened Wrappers

  /** One channel value of a canvas `ImageData` buffer (a Uint8ClampedArray). */
  type Byte = x: int | 0 <= x < 256

  /** An `ImageData.data` buffer: four bytes (red, green, blue, alpha) per pixel. */
  type RgbaBuffer = s: seq<Byte> | |s| % 4 == 0 witness []

  datatype Rgba = Rgba(r: Byte, g: Byte, b: Byte, a: Byte)

  /**
   * What decoding the selected file gives the heuristic: the image failed to
   * load (`img.onerror`), or it loaded and the canvas gave back pixel data,
   * or no data at all (no 2D context).
   */
  datatype ImageLoad = LoadFailed | Loaded(imageData: Option<RgbaBuffer>)

  /** Brightness floor: the green channel must be strictly above this. */
  const GreenFloor: Byte := 50

  /** Pixel `p` of the buffer, i.e. bytes 4p .. 4p+3. */
  function PixelAt(data: RgbaBuffer, p: nat): (px: Rgba)
    requires p < |data| / 4
    ensures px.r == data[4 * p] && px.g == data[4 * p + 1] && px.b == data[4 * p + 2]
  {
    Rgba(data[4 * p], data[4 * p + 1], data[4 * p + 2], data[4 * p + 3])
  }

  /** A pixel counts as leaf-like when green strictly dominates red and blue and is above the floor. */
  predicate IsGreenish(px: Rgba)
  {
    px.g > px.r && px.g > px.b && px.g > GreenFloor
  }

  /** The number of greenish pixels among the first `n` pixels of the buffer. */
  function GreenCount(data: RgbaBuffer, n: nat): nat
    requires n <= |data| / 4
  {
    if n == 0 then 0
    else GreenCount(data, n - 1) + (if IsGreenish(PixelAt(data, n - 1)) then 1 else 0)
  }

  function PixelCount(data: RgbaBuffer): nat
  {
    |data| / 4
  }

  /**
   * The acceptance rule `greenPixels / totalPixels > 0.15`, stated without
   * division: green * 20 > total * 3. With no pixels this is false, as the
   * source's `0 / 0` is NaN and NaN > 0.15 is false.
   */
  predicate LooksLikeLeaf(data: RgbaBuffer)
  {
    20 * GreenCount(data, PixelCount(data)) > 3 * PixelCount(data)
  }

  /**
   * The heuristic: a failed decode or missing pixel data is a rejection;
   * otherwise one pass over the buffer in steps of four bytes counts the
   * greenish pixels, and the ratio decides.
   */
  method ValidateGrapeLeaf(image: ImageLoad) returns (isLeaf: bool)
    ensures isLeaf <==> image.Loaded? && image.imageData.Some? && LooksLikeLeaf(image.imageData.value)
  {
    if image.LoadFailed? || image.imageData.None? {
      return false;
    }
    var data := image.imageData.value;
    var greenPixels: nat := 0;
    var totalPixels := |data| / 4;
    var i := 0;
    while i < |data|
      invariant 0 <= i <= |data| && i % 4 == 0
      invariant greenPixels == GreenCount(data, i / 4)
    {
      var r, g, b := data[i], data[i + 1], data[i + 2];
      assert PixelAt(data, i / 4) == Rgba(r, g, b, data[i + 3]);
      if g > r && g > b && g > GreenFloor {
        greenPixels := greenPixels + 1;
      }
      i := i + 4;
    }
    isLeaf := 20 * greenPixels > 3 * totalPixels;
  }

  /** The green count never exceeds the number of pixels examined. */
  lemma {:induction false} GreenCountBound(data: RgbaBuffer, n: nat)
    requires n <= |data| / 4
    ensures GreenCount(data, n) <= n
  {
    if n > 0 {
      GreenCountBound(data, n - 1);
    }
  }

  /** If every pixel is greenish, every pixel is counted. */
  lemma {:induction false} AllGreenishCounted(data: RgbaBuffer, n: nat)
    requires n <= |data| / 4
    requires forall p :: 0 <= p < |data| / 4 ==> IsGreenish(PixelAt(data, p))
    ensures GreenCount(data, n) == n
  {
    if n > 0 {
      AllGreenishCounted(data, n - 1);
    }
  }

  /** If no pixel is greenish, none is counted. */
  lemma {:induction false} NoGreenishCounted(data: RgbaBuffer, n: nat)
    requires n <= |data| / 4
    requires forall p :: 0 <= p < |data| / 4 ==> !IsGreenish(PixelAt(data, p))
    ensures GreenCount(data, n) == 0
  {
    if n > 0 {
      NoGreenishCounted(data, n - 1);
    }
  }

  /** An image with no pixels is rejected. */
  lemma EmptyImageRejected(data: RgbaBuffer)
    requires |data| == 0
    ensures !LooksLikeLeaf(data)
  {
  }

  /** A non-empty image of pure green (0, 255, 0) pixels, any alpha, is accepted. */
  lemma PureGreenAccepted(data: RgbaBuffer)
    requires |data| > 0
    requires forall p :: 0 <= p < |data| / 4 ==> PixelAt(data, p).r == 0 && PixelAt(data, p).g == 255 && PixelAt(data, p).b == 0
    ensures LooksLikeLeaf(data)
  {
    AllGreenishCounted(data, PixelCount(data));
  }

  /** An image of pure red (255, 0, 0) pixels is rejected. */
  lemma PureRedRejected(data: RgbaBuffer)
    requires forall p :: 0 <= p < |data| / 4 ==> PixelAt(data, p).r == 255 && PixelAt(data, p).g == 0 && PixelAt(data, p).b == 0
    ensures !LooksLikeLeaf(data)
  {
    NoGreenishCounted(data, PixelCount(data));
  }

  /** An image of pure blue (0, 0, 255) pixels is rejected. */
  lemma PureBlueRejected(data: RgbaBuffer)
    requires forall p :: 0 <= p < |data| / 4 ==> PixelAt(data, p).r == 0 && PixelAt(data, p).g == 0 && PixelAt(data, p).b == 255
    ensures !LooksLikeLeaf(data)
  {
    NoGreenishCounted(data, PixelCount(data));
  }

  /**
   * Ties the integer rule to the source's expression: for a non-empty image,
   * the image is accepted exactly when the green ratio, as a real number, is
   * strictly above 0.15. A ratio of exactly 0.15 is rejected.
   */
  lemma RatioThreshold(data: RgbaBuffer)
    requires |data| > 0
    ensures LooksLikeLeaf(data) <==> (GreenCount(data, PixelCount(data)) as real) / (PixelCount(data) as real) > 0.15
  {
    RatioAboveFifteenPercent(GreenCount(data, PixelCount(data)), PixelCount(data));
  }

  lemma RatioAboveFifteenPercent(green: nat, total: nat)
    requires total > 0
    ensures 20 * green > 3 * total <==> (green as real) / (total as real) > 0.15
  {
    var g, t := green as real, total as real;
    var q := g / t;
    assert q * t == g;
    assert (20 * green) as real == 20.0 * g && (3 * total) as real == 3.0 * t;
    if q > 0.15 {
      ProductPositive(q - 0.15, t);
      assert g > 0.15 * t;
    } else {
      ProductNonNegative(0.15 - q, t);
      assert g <= 0.15 * t;
    }
  }

  lemma ProductPositive(x: real, y: real)
    requires x > 0.0 && y > 0.0
    ensures x * y > 0.0
  {
  }

  lemma ProductNonNegative(x: real, y: real)
    requires x >= 0.0 && y >= 0.0
    ensures x * y >= 0.0
  {
  }
}
