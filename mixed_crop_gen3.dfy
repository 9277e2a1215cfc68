/**
 * The third mixed-crop generator: the padding colour is estimated from the
 * left image's left edge, both crops are padded with it to the taller one's
 * height and placed side by side, and the driver alternates which crop goes
 * on the left.
 */
module MixedCropGen3 {
  import opened Py
  import opened Raster

  /** `side='left'` or any other value, which samples the right edge. */
  datatype Side = LeftEdge | RightEdge

  datatype Chan = Blue | Green | Red

  function Value(p: Pixel, c: Chan): int {
    match c
    case Blue => p.b as int
    case Green => p.g as int
    case Red => p.r as int
  }

  /** `sample_rows`. */
  const SampleRows: nat := 5

  function Min(a: nat, b: nat): nat {
    if a <= b then a else b
  }

  /** The columns `:2` (left) or `-2:` (right) select of a row w pixels wide. */
  function EdgeColumns(w: nat, side: Side): (r: (nat, nat))
    ensures r.0 <= r.1 == (if side == LeftEdge then Min(2, w) else w)
    ensures r.1 - r.0 == Min(2, w)
  {
    match side
    case LeftEdge => (0, Min(2, w))
    case RightEdge => (if w >= 2 then w - 2 else 0, w)
  }

  /**
   * The first n rows of the chosen edge, flattened row by row as
   * `reshape(-1, 3)` lists them.
   */
  function EdgePixels(img: Image, side: Side, n: nat): (r: seq<Pixel>)
    requires Valid(img) && n <= |img|
    ensures |r| == n * Min(2, Width(img))
  {
    if n == 0 then []
    else
      var (lo, hi) := EdgeColumns(Width(img), side);
      EdgePixels(img, side, n - 1) + img[n - 1][lo..hi]
  }

  /** The k-th sampled pixel is the one at row k / c, column lo + k % c, for c edge columns. */
  lemma {:induction false} EdgePixelAt(img: Image, side: Side, n: nat, k: nat)
    requires Valid(img) && n <= |img| && k < n * Min(2, Width(img))
    ensures var (lo, hi) := EdgeColumns(Width(img), side);
            var c := Min(2, Width(img));
            k / c < n && EdgePixels(img, side, n)[k] == img[k / c][lo + k % c]
  {
    var (lo, hi) := EdgeColumns(Width(img), side);
    var c := Min(2, Width(img));
    var prev := EdgePixels(img, side, n - 1);
    var row := img[n - 1][lo..hi];
    assert EdgePixels(img, side, n) == prev + row;
    if k < (n - 1) * c {
      EdgePixelAt(img, side, n - 1, k);
    } else {
      var j := k - (n - 1) * c;
      assert 0 <= j < c;
      assert k == (n - 1) * c + j;
      assert k / c == n - 1 && k % c == j by {
        DivMod(n - 1, c, j);
      }
    }
  }

  lemma DivMod(q: nat, c: nat, j: nat)
    requires 0 <= j < c && c <= 2
    ensures (q * c + j) / c == q && (q * c + j) % c == j
  {
    if c == 2 {
      assert q * c + j == 2 * q + j;
    }
  }

  function Sum(ps: seq<Pixel>, c: Chan): (s: nat)
    ensures s <= 255 * |ps|
  {
    if ps == [] then 0 else Sum(ps[..|ps| - 1], c) + Value(ps[|ps| - 1], c)
  }

  /** `int(np.mean(...))` of one channel: the average, rounded down. */
  function Mean(ps: seq<Pixel>, c: Chan): (m: Channel)
    requires |ps| >= 1
    ensures |ps| * (m as int) <= Sum(ps, c) < |ps| * (m as int + 1)
  {
    DivBounds(Sum(ps, c), |ps|);
    (Sum(ps, c) / |ps|) as Channel
  }

  /** Integer division of a sum of n channel values by n is a channel value bracketing the sum. */
  lemma DivBounds(s: nat, n: nat)
    requires n >= 1 && s <= 255 * n
    ensures 0 <= s / n < 256
    ensures n * (s / n) <= s < n * (s / n + 1)
  {
    var q, m := s / n, s % n;
    assert s == n * q + m && 0 <= m < n;
    assert n * (q + 1) == n * q + n;
    if q >= 256 {
      MulLe(n, 256, q);
      assert false;
    }
  }

  /** `get_dominant_border_color`: the truncated per-channel mean of the top rows of one edge. */
  function BorderColour(img: Image, side: Side): (p: Pixel)
    requires Valid(img)
    ensures var ps := EdgePixels(img, side, Min(SampleRows, |img|));
            |ps| == Min(SampleRows, |img|) * Min(2, Width(img)) && |ps| >= 1
            && p == Pixel(Mean(ps, Blue), Mean(ps, Green), Mean(ps, Red))
  {
    var ps := EdgePixels(img, side, Min(SampleRows, |img|));
    Pixel(Mean(ps, Blue), Mean(ps, Green), Mean(ps, Red))
  }

  lemma {:induction false} SumUniform(ps: seq<Pixel>, p: Pixel, c: Chan)
    requires forall k :: 0 <= k < |ps| ==> ps[k] == p
    ensures Sum(ps, c) == |ps| * Value(p, c)
    decreases |ps|
  {
    if ps != [] {
      SumUniform(ps[..|ps| - 1], p, c);
    }
  }

  /** An edge of one colour yields exactly that colour. */
  lemma UniformEdge(img: Image, side: Side, p: Pixel)
    requires Valid(img)
    requires forall y, x :: 0 <= y < |img| && 0 <= x < |img[y]| ==> img[y][x] == p
    ensures BorderColour(img, side) == p
  {
    var n := Min(SampleRows, |img|);
    var ps := EdgePixels(img, side, n);
    var (lo, hi) := EdgeColumns(Width(img), side);
    forall k | 0 <= k < |ps| ensures ps[k] == p {
      EdgePixelAt(img, side, n, k);
    }
    SumUniform(ps, p, Blue);
    SumUniform(ps, p, Green);
    SumUniform(ps, p, Red);
    MeanExact(ps, Blue, p.b as int);
    MeanExact(ps, Green, p.g as int);
    MeanExact(ps, Red, p.r as int);
  }

  lemma MeanExact(ps: seq<Pixel>, c: Chan, v: int)
    requires |ps| >= 1 && Sum(ps, c) == |ps| * v
    ensures Mean(ps, c) as int == v
  {
    var n, m := |ps|, Mean(ps, c) as int;
    MulMono(n, m, v);
    MulMono(n, m + 1, v);
  }

  /** Multiplying by a positive n keeps the order of two numbers. */
  lemma MulMono(n: nat, a: int, b: int)
    requires n > 0
    ensures a <= b <==> n * a <= n * b
  {
    if a <= b {
      MulLe(n, a, b);
    } else {
      MulLe(n, b + 1, a);
      assert n * (b + 1) == n * b + n;
    }
  }

  lemma {:induction false} MulLe(n: nat, a: int, b: int)
    requires a <= b
    ensures n * a <= n * b
  {
    if n > 0 {
      MulLe(n - 1, a, b);
      assert n * a == (n - 1) * a + a;
      assert n * b == (n - 1) * b + b;
    }
  }

  /** `create_mixed_crop`: both crops padded with the left image's left-edge colour, then side by side. */
  function CreateMixedCrop(left: Option<Image>, right: Option<Image>): (r: Option<Image>)
    requires left.Some? ==> Valid(left.value)
    requires right.Some? ==> Valid(right.value)
    ensures r.None? <==> left.None? || right.None?
    ensures r.Some? ==> Valid(r.value)
                        && |r.value| == Max(|left.value|, |right.value|)
                        && Width(r.value) == Width(left.value) + Width(right.value)
  {
    if left.None? || right.None? then None
    else Some(Stitch(left.value, right.value, BorderColour(left.value, LeftEdge)))
  }

  /** A pixel outside both crops has the colour sampled from the left image's left edge. */
  lemma CropBackground(left: Image, right: Image, y: nat, x: nat)
    requires Valid(left) && Valid(right)
    requires y < Max(|left|, |right|) && x < Width(left) + Width(right)
    requires x < Width(left) ==> !(PadTop(|left|, Max(|left|, |right|)) <= y < PadTop(|left|, Max(|left|, |right|)) + |left|)
    requires x >= Width(left) ==> !(PadTop(|right|, Max(|left|, |right|)) <= y < PadTop(|right|, Max(|left|, |right|)) + |right|)
    ensures CreateMixedCrop(Some(left), Some(right)).value[y][x] == BorderColour(left, LeftEdge)
  {
    StitchPadding(left, right, BorderColour(left, LeftEdge), y, x);
  }

  /** Iteration i of the driver: handwritten on the left on even iterations, printed on the left on odd ones. */
  function DriverCrop(i: nat, hand: Option<Image>, printed: Option<Image>): (r: Option<Image>)
    requires hand.Some? ==> Valid(hand.value)
    requires printed.Some? ==> Valid(printed.value)
  {
    if i % 2 == 0 then CreateMixedCrop(hand, printed) else CreateMixedCrop(printed, hand)
  }

  /** An iteration writes an image exactly when both crops load, and its size does not depend on the order. */
  lemma DriverLoads(i: nat, hand: Option<Image>, printed: Option<Image>)
    requires hand.Some? ==> Valid(hand.value)
    requires printed.Some? ==> Valid(printed.value)
    ensures DriverCrop(i, hand, printed).Some? <==> hand.Some? && printed.Some?
    ensures hand.Some? && printed.Some? ==>
              var r := DriverCrop(i, hand, printed).value;
              |r| == Max(|hand.value|, |printed.value|) && Width(r) == Width(hand.value) + Width(printed.value)
  {
  }

  /**
   * The handwritten crop's pixel (y, x) lands below its top padding, in
   * column x on an even iteration and after the printed crop's width on an
   * odd one.
   */
  lemma DriverOrder(i: nat, hand: Image, printed: Image, y: nat, x: nat)
    requires Valid(hand) && Valid(printed)
    requires y < |hand| && x < Width(hand)
    ensures var r := DriverCrop(i, Some(hand), Some(printed)).value;
            var row := y + PadTop(|hand|, Max(|hand|, |printed|));
            var column := if i % 2 == 0 then x else Width(printed) + x;
            row < |r| && column < |r[row]| && r[row][column] == hand[y][x]
  {
    if i % 2 == 0 {
      assert DriverCrop(i, Some(hand), Some(printed)) == CreateMixedCrop(Some(hand), Some(printed));
      CropLeftPixel(hand, printed, y, x);
    } else {
      var colour := BorderColour(printed, LeftEdge);
      assert DriverCrop(i, Some(hand), Some(printed)).value == Stitch(printed, hand, colour);
      HandOnRight(hand, printed, colour, y, x);
    }
  }

  /** With the printed crop on the left, the handwritten pixel (y, x) sits after the printed crop's width. */
  lemma HandOnRight(hand: Image, printed: Image, colour: Pixel, y: nat, x: nat)
    requires Valid(hand) && Valid(printed) && y < |hand| && x < Width(hand)
    ensures var r := Stitch(printed, hand, colour);
            var row := y + PadTop(|hand|, Max(|hand|, |printed|));
            row < |r| && Width(printed) + x < |r[row]| && r[row][Width(printed) + x] == hand[y][x]
  {
    MaxSwap(|hand|, |printed|);
    StitchRightPixel(printed, hand, colour, y, x);
  }

  lemma MaxSwap(a: nat, b: nat)
    ensures Max(a, b) == Max(b, a)
  {
  }

  /** The left crop's pixel (y, x) sits in column x, below its top padding. */
  lemma CropLeftPixel(left: Image, right: Image, y: nat, x: nat)
    requires Valid(left) && Valid(right) && y < |left| && x < Width(left)
    ensures var r := CreateMixedCrop(Some(left), Some(right)).value;
            var row := y + PadTop(|left|, Max(|left|, |right|));
            row < |r| && x < |r[row]| && r[row][x] == left[y][x]
  {
    StitchLeftPixel(left, right, BorderColour(left, LeftEdge), y, x);
  }
}
