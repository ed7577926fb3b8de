/**
 * The colour pipeline that `applyFiltersToCanvas` runs over every pixel:
 * brightness scaling, the contrast curve around 128 (clamped to [0, 255]),
 * saturation around the pixel's luma (clamped), and the store into the
 * canvas's `Uint8ClampedArray`. Channel arithmetic is over reals.
 */
module ColorFilter {

  /** The three filter percentages held by the editor (`filterBrightness`, ...). */
  datatype FilterParams = FilterParams(brightness: int, contrast: int, saturation: int)

  datatype Rgb = Rgb(r: int, g: int, b: int)

  predicate IsByte(v: int) {
    0 <= v <= 255
  }

  /** `Math.max(0, Math.min(255, v))`. */
  function Clamp(v: real): (c: real)
    ensures 0.0 <= c <= 255.0
    ensures 0.0 <= v <= 255.0 ==> c == v
  {
    if v < 0.0 then 0.0 else if v > 255.0 then 255.0 else v
  }

  /**
   * Storing a number into a `Uint8ClampedArray` (ToUint8Clamp of ECMA-262,
   * section 7.1.12): clamp to [0, 255], then round to nearest, ties to even.
   */
  function ToUint8Clamped(v: real): (b: int)
    ensures IsByte(b)
    ensures 0.0 <= v <= 255.0 ==> -0.5 <= b as real - v <= 0.5
    ensures v == v.Floor as real && 0.0 <= v <= 255.0 ==> b == v.Floor
  {
    if v <= 0.0 then 0
    else if v >= 255.0 then 255
    else
      var f := v.Floor;
      if f as real + 0.5 < v then f + 1
      else if v < f as real + 0.5 then f
      else if f % 2 == 1 then f + 1
      else f
  }

  /** `259 * 100 - contrast * 255` is never zero for a whole-number contrast. */
  lemma ContrastDenominatorNonZero(contrast: int)
    ensures contrast * 255 != 25900
  {
    if contrast <= 101 {
      assert contrast * 255 <= 101 * 255;
    } else {
      assert contrast * 255 >= 102 * 255;
    }
  }

  /**
   * `factor = 259 * (c*255 + 255) / (255 * (259 - c*255))` with `c = contrast / 100`.
   * Its pole, c*255 = 259, lies between the whole numbers 101 and 102.
   */
  function ContrastFactor(contrast: int): real {
    ContrastDenominatorNonZero(contrast);
    var k := (contrast * 255) as real / 100.0;
    259.0 * (k + 255.0) / (255.0 * (259.0 - k))
  }

  /** The contrast curve is the identity at contrast 0, the neutral value in this formula. */
  lemma ContrastNeutralAtZero()
    ensures ContrastFactor(0) == 1.0
  {
  }

  /** At the editor's default contrast of 100 the factor is 129.5, so 100 does not leave the image alone. */
  lemma ContrastAtDefault()
    ensures ContrastFactor(100) == 129.5
  {
    assert (100 * 255) as real / 100.0 == 255.0;
  }

  /**
   * Below the pole the factor grows strictly with the contrast, and it is
   * non-negative from contrast -100 on.
   */
  lemma ContrastFactorIncreasing(a: int, b: int)
    requires -100 <= a < b <= 101
    ensures 0.0 <= ContrastFactor(a) < ContrastFactor(b)
  {
    var ka := (a * 255) as real / 100.0;
    var kb := (b * 255) as real / 100.0;
    assert ka < kb < 259.0 && -255.0 <= ka;
    var da := 255.0 * (259.0 - ka);
    var db := 255.0 * (259.0 - kb);
    assert da > 0.0 && db > 0.0;
    var na := 259.0 * (ka + 255.0);
    var nb := 259.0 * (kb + 255.0);
    // na / da < nb / db  <==>  na * db < nb * da, which reduces to 514 * ka < 514 * kb
    assert na * db < nb * da by {
      assert na * db == 259.0 * 255.0 * ((ka + 255.0) * (259.0 - kb));
      assert nb * da == 259.0 * 255.0 * ((kb + 255.0) * (259.0 - ka));
      assert (kb + 255.0) * (259.0 - ka) - (ka + 255.0) * (259.0 - kb) == 514.0 * (kb - ka);
    }
    DivLess(na, da, nb, db);
    assert 0.0 <= na / da;
  }

  lemma DivLess(na: real, da: real, nb: real, db: real)
    requires da > 0.0 && db > 0.0 && na * db < nb * da
    ensures na / da < nb / db
  {
    var qa, qb := na / da, nb / db;
    assert na == qa * da;
    assert nb == qb * db;
    assert qa * (da * db) < qb * (db * da);
  }

  /**
   * A larger contrast (below the pole) pushes every channel value other than
   * 128 strictly further from 128, before the clamp.
   */
  lemma ContrastSpreads(a: int, b: int, v: real)
    requires -100 <= a < b <= 101 && v != 128.0
    ensures var fa, fb := ContrastFactor(a), ContrastFactor(b);
      AbsReal(fa * (v - 128.0)) < AbsReal(fb * (v - 128.0))
  {
    ContrastFactorIncreasing(a, b);
    var fa, fb := ContrastFactor(a), ContrastFactor(b);
    if v > 128.0 {
      MulStrict(fa, fb, v - 128.0);
    } else {
      MulStrict(fa, fb, 128.0 - v);
    }
  }

  lemma MulStrict(x: real, y: real, d: real)
    requires 0.0 <= x < y && d > 0.0
    ensures 0.0 <= x * d < y * d
  {
    assert (y - x) * d > 0.0;
  }

  function AbsReal(v: real): real {
    if v < 0.0 then -v else v
  }

  /** The luma weights of the saturation stage. */
  function Gray(r: real, g: real, b: real): real {
    0.299 * r + 0.587 * g + 0.114 * b
  }

  /** The contrast stage of one channel, after brightness: clamped to [0, 255]. */
  function ContrastChannel(v: int, f: FilterParams): (c: real)
    ensures 0.0 <= c <= 255.0
  {
    var brightened := v as real * (f.brightness as real / 100.0);
    Clamp(ContrastFactor(f.contrast) * (brightened - 128.0) + 128.0)
  }

  /** The saturation stage of one channel around `gray`: clamped to [0, 255]. */
  function SaturateChannel(v: real, gray: real, f: FilterParams): (c: real)
    ensures 0.0 <= c <= 255.0
  {
    Clamp(gray + (v - gray) * (f.saturation as real / 100.0))
  }

  /** The new colour of one pixel; every written channel is a byte. */
  function FilterPixel(p: Rgb, f: FilterParams): (q: Rgb)
    ensures IsByte(q.r) && IsByte(q.g) && IsByte(q.b)
  {
    var r := ContrastChannel(p.r, f);
    var g := ContrastChannel(p.g, f);
    var b := ContrastChannel(p.b, f);
    var gray := Gray(r, g, b);
    Rgb(ToUint8Clamped(SaturateChannel(r, gray, f)),
        ToUint8Clamped(SaturateChannel(g, gray, f)),
        ToUint8Clamped(SaturateChannel(b, gray, f)))
  }

  /** Red, green or blue of a pixel by its offset 0, 1 or 2 in the RGBA quadruple. */
  function Channel(p: Rgb, k: int): int
    requires 0 <= k < 3
  {
    if k == 0 then p.r else if k == 1 then p.g else p.b
  }

  /** The pixel whose quadruple starts at `base`. */
  function PixelAt(s: seq<int>, base: int): Rgb
    requires 0 <= base && base + 2 < |s|
  {
    Rgb(s[base], s[base + 1], s[base + 2])
  }

  /** The byte at index `k` once `g` has recoloured every pixel: alpha kept, a colour channel from its pixel. */
  function MappedAt(s: seq<int>, g: Rgb -> Rgb, k: int): (v: int)
    requires |s| % 4 == 0 && 0 <= k < |s|
    ensures k % 4 == 3 ==> v == s[k]
  {
    var base := k - k % 4;
    if k % 4 == 3 then s[k] else Channel(g(PixelAt(s, base)), k % 4)
  }

  /** One RGBA quadruple. */
  function Quad(p: Rgb, alpha: int): (q: seq<int>)
    ensures |q| == 4
  {
    [p.r, p.g, p.b, alpha]
  }

  /** An RGBA buffer with every pixel's colour replaced by `g` of it, pixel by pixel from the front. */
  function MapPixels(s: seq<int>, g: Rgb -> Rgb): (t: seq<int>)
    requires |s| % 4 == 0
    ensures |t| == |s|
    decreases |s|
  {
    if |s| == 0 then [] else Quad(g(PixelAt(s, 0)), s[3]) + MapPixels(s[4..], g)
  }

  /** Pixel `j` of `t` is pixel `j` of `s` recoloured by `g`, with the alpha byte of `s`. */
  predicate QuadMapped(s: seq<int>, t: seq<int>, g: Rgb -> Rgb, j: nat)
    requires 4 * j + 3 < |s| && |t| == |s|
  {
    var p := g(PixelAt(s, 4 * j));
    t[4 * j] == p.r && t[4 * j + 1] == p.g && t[4 * j + 2] == p.b && t[4 * j + 3] == s[4 * j + 3]
  }

  /** Pixel `j` of `t` is pixel `j` of `s`, all four bytes. */
  predicate QuadSame(s: seq<int>, t: seq<int>, j: nat)
    requires 4 * j + 3 < |s| && |t| == |s|
  {
    t[4 * j] == s[4 * j] && t[4 * j + 1] == s[4 * j + 1] && t[4 * j + 2] == s[4 * j + 2]
    && t[4 * j + 3] == s[4 * j + 3]
  }

  /** A buffer whose every pixel is mapped by `g` is `MapPixels` of the original. */
  lemma {:induction false} MapPixelsByQuads(s: seq<int>, t: seq<int>, g: Rgb -> Rgb, n: nat)
    requires |s| == 4 * n && |t| == |s|
    requires forall j: nat :: j < n ==> QuadMapped(s, t, g, j)
    ensures t == MapPixels(s, g)
    decreases n
  {
    if n > 0 {
      assert QuadMapped(s, t, g, 0);
      assert t[..4] == Quad(g(PixelAt(s, 0)), s[3]);
      forall j: nat | j < n - 1
        ensures QuadMapped(s[4..], t[4..], g, j)
      {
        assert QuadMapped(s, t, g, j + 1);
        assert PixelAt(s[4..], 4 * j) == PixelAt(s, 4 * (j + 1));
      }
      MapPixelsByQuads(s[4..], t[4..], g, n - 1);
      assert t == t[..4] + t[4..];
    }
  }

  /** The recursive definition agrees byte for byte with the pointwise one. */
  lemma {:induction false} MapPixelsAt(s: seq<int>, g: Rgb -> Rgb, k: int)
    requires |s| % 4 == 0 && 0 <= k < |s|
    ensures MapPixels(s, g)[k] == MappedAt(s, g, k)
    decreases |s|
  {
    if k >= 4 {
      MapPixelsAt(s[4..], g, k - 4);
      assert (k - 4) % 4 == k % 4;
      if k % 4 != 3 {
        assert PixelAt(s[4..], k - 4 - (k - 4) % 4) == PixelAt(s, k - k % 4);
      }
    }
  }

  /** The filter as a per-pixel colour function. */
  function PixelFilter(f: FilterParams): Rgb -> Rgb {
    p => FilterPixel(p, f)
  }

  /** The whole RGBA buffer after the filter: every pixel's colour replaced by `FilterPixel`. */
  function Filtered(s: seq<int>, f: FilterParams): (t: seq<int>)
    requires |s| % 4 == 0
    ensures |t| == |s|
  {
    MapPixels(s, PixelFilter(f))
  }

  /** The filter writes colour bytes only, and every colour byte it writes is a byte. */
  lemma FilteredKeepsAlpha(s: seq<int>, f: FilterParams)
    requires |s| % 4 == 0
    ensures forall k :: 0 <= k < |s| && k % 4 == 3 ==> Filtered(s, f)[k] == s[k]
    ensures forall k :: 0 <= k < |s| && k % 4 != 3 ==> IsByte(Filtered(s, f)[k])
  {
    forall k | 0 <= k < |s|
      ensures k % 4 == 3 ==> Filtered(s, f)[k] == s[k]
      ensures k % 4 != 3 ==> IsByte(Filtered(s, f)[k])
    {
      MapPixelsAt(s, PixelFilter(f), k);
    }
  }

  /** The neutral parameters of this formula: brightness 100, contrast 0, saturation 100. */
  const Neutral := FilterParams(100, 0, 100)

  /** The neutral filter leaves every pixel of bytes unchanged. */
  lemma NeutralPixel(p: Rgb)
    requires IsByte(p.r) && IsByte(p.g) && IsByte(p.b)
    ensures FilterPixel(p, Neutral) == p
  {
    ContrastNeutralAtZero();
    NeutralChannel(p.r);
    NeutralChannel(p.g);
    NeutralChannel(p.b);
    var r, g, b := p.r as real, p.g as real, p.b as real;
    var gray := Gray(r, g, b);
    assert SaturateChannel(r, gray, Neutral) == r;
    assert SaturateChannel(g, gray, Neutral) == g;
    assert SaturateChannel(b, gray, Neutral) == b;
  }

  lemma NeutralChannel(v: int)
    requires IsByte(v)
    ensures ContrastChannel(v, Neutral) == v as real
  {
    ContrastNeutralAtZero();
    assert v as real * (100 as real / 100.0) == v as real;
  }

  /** The neutral filter leaves a buffer of bytes unchanged. */
  lemma NeutralBuffer(s: seq<int>)
    requires |s| % 4 == 0 && forall k :: 0 <= k < |s| ==> IsByte(s[k])
    ensures Filtered(s, Neutral) == s
  {
    var n := |s| / 4;
    assert |s| == 4 * n;
    forall j: nat | j < n
      ensures QuadMapped(s, s, PixelFilter(Neutral), j)
    {
      NeutralPixel(PixelAt(s, 4 * j));
    }
    MapPixelsByQuads(s, s, PixelFilter(Neutral), n);
  }

  /** At (100, 100, 100), the initial and reset values, a mid-grey pixel is driven to black. */
  lemma DefaultParamsNotIdentity()
    ensures FilterPixel(Rgb(100, 100, 100), FilterParams(100, 100, 100)) == Rgb(0, 0, 0)
  {
    ContrastAtDefault();
    assert ContrastChannel(100, FilterParams(100, 100, 100)) == 0.0;
  }

  /** `applyFilter(200, 100, 100)` on the pixel (100, 100, 100) saturates it to white. */
  lemma DoubleBrightnessExample()
    ensures FilterPixel(Rgb(100, 100, 100), FilterParams(200, 100, 100)) == Rgb(255, 255, 255)
  {
    ContrastAtDefault();
    assert ContrastChannel(100, FilterParams(200, 100, 100)) == 255.0;
    assert Gray(255.0, 255.0, 255.0) == 255.0;
  }
}
