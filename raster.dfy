/**
 * Images as the crop generators see them: rows of BGR pixels with 8-bit
 * channels, as `cv2.imread` returns them. Padding to a height with constant
 * rows (`cv2.copyMakeBorder` with a constant border on top and bottom only)
 * and side-by-side stacking (`np.hstack`) are the two image operations the
 * generators combine.
 */
module Raster {
  /** One 8-bit channel value. */
  newtype Channel = x: int | 0 <= x < 256

  datatype Pixel = Pixel(b: Channel, g: Channel, r: Channel)

  /** Rows of pixels, top to bottom. */
  type Image = seq<seq<Pixel>>

  function Width(img: Image): nat {
    if img == [] then 0 else |img[0]|
  }

  /** An image `imread` can return: at least one row and one column, every row as wide as the first. */
  predicate Valid(img: Image) {
    |img| >= 1 && |img[0]| >= 1 && forall y :: 0 <= y < |img| ==> |img[y]| == |img[0]|
  }

  /** n rows of w pixels of one colour. */
  function Rows(n: nat, w: nat, colour: Pixel): (r: Image)
    ensures |r| == n
    ensures forall y :: 0 <= y < n ==> r[y] == seq(w, _ => colour)
  {
    seq(n, _ => seq(w, _ => colour))
  }

  /** The rows above the image when it is centred in `target` rows: half the difference, rounded down. */
  function PadTop(h: nat, target: nat): nat
    requires h <= target
  {
    (target - h) / 2
  }

  /**
   * `pad_to_height`: an image already `target` rows high is returned as it
   * is; otherwise constant rows are added above and below, the larger share
   * below. OpenCV refuses a negative border, so the target is never lower
   * than the image.
   */
  function PadToHeight(img: Image, target: nat, colour: Pixel): (r: Image)
    requires Valid(img) && |img| <= target
    ensures Valid(r) && |r| == target && Width(r) == Width(img)
    ensures r[PadTop(|img|, target)..PadTop(|img|, target) + |img|] == img
    ensures forall y :: 0 <= y < |r| && !(PadTop(|img|, target) <= y < PadTop(|img|, target) + |img|) ==>
              r[y] == seq(Width(img), _ => colour)
  {
    if |img| == target then img
    else
      var top := PadTop(|img|, target);
      var bottom := target - |img| - top;
      var w := Width(img);
      var r := Rows(top, w, colour) + img + Rows(bottom, w, colour);
      assert r[top..top + |img|] == img;
      r
  }

  /** The bottom padding is the top padding or one row more. */
  lemma PadBalanced(h: nat, target: nat)
    requires h <= target
    ensures var bottom := target - h - PadTop(h, target);
            bottom == PadTop(h, target) || bottom == PadTop(h, target) + 1
  {
  }

  /** An image of the target height comes back unchanged. */
  lemma PadIdentity(img: Image, colour: Pixel)
    requires Valid(img)
    ensures PadToHeight(img, |img|, colour) == img
  {
  }

  /** `np.hstack` of two images of equal height: each row of the first followed by the same row of the second. */
  function HStack(a: Image, b: Image): (r: Image)
    requires |a| == |b|
    ensures |r| == |a|
    ensures forall y :: 0 <= y < |r| ==> |r[y]| == |a[y]| + |b[y]| && r[y][..|a[y]|] == a[y] && r[y][|a[y]|..] == b[y]
  {
    seq(|a|, y requires 0 <= y < |a| => a[y] + b[y])
  }

  /** Stacking valid images side by side gives a valid image as wide as both together. */
  lemma HStackValid(a: Image, b: Image)
    requires Valid(a) && Valid(b) && |a| == |b|
    ensures Valid(HStack(a, b)) && Width(HStack(a, b)) == Width(a) + Width(b)
  {
    var r := HStack(a, b);
    assert |r[0]| == |a[0]| + |b[0]|;
    forall y | 0 <= y < |r| ensures |r[y]| == |r[0]| {
      assert r[y] == a[y] + b[y];
    }
  }

  /** Every pixel of the image reappears in the padded image, shifted down by the top padding. */
  lemma PadKeepsPixels(img: Image, target: nat, colour: Pixel, y: nat, x: nat)
    requires Valid(img) && |img| <= target
    requires y < |img| && x < |img[y]|
    ensures var r := PadToHeight(img, target, colour);
            y + PadTop(|img|, target) < |r| && x < |r[y + PadTop(|img|, target)]|
            && r[y + PadTop(|img|, target)][x] == img[y][x]
  {
    var top := PadTop(|img|, target);
    var r := PadToHeight(img, target, colour);
    assert r[top..top + |img|][y] == img[y];
  }

  /** The larger of two heights. */
  function Max(a: nat, b: nat): (m: nat)
    ensures m >= a && m >= b && (m == a || m == b)
  {
    if a >= b then a else b
  }

  /**
   * The stitch of both generators: both images padded to the taller one's
   * height with one colour, then stacked side by side.
   */
  function Stitch(left: Image, right: Image, colour: Pixel): (r: Image)
    requires Valid(left) && Valid(right)
    ensures Valid(r) && |r| == Max(|left|, |right|) && Width(r) == Width(left) + Width(right)
  {
    var target := Max(|left|, |right|);
    var l := PadToHeight(left, target, colour);
    var rt := PadToHeight(right, target, colour);
    HStackValid(l, rt);
    HStack(l, rt)
  }

  lemma StitchLeftPixel(left: Image, right: Image, colour: Pixel, y: nat, x: nat)
    requires Valid(left) && Valid(right) && y < |left| && x < Width(left)
    ensures Stitch(left, right, colour)[y + PadTop(|left|, Max(|left|, |right|))][x] == left[y][x]
  {
    var target := Max(|left|, |right|);
    var l := PadToHeight(left, target, colour);
    var rt := PadToHeight(right, target, colour);
    PadKeepsPixels(left, target, colour, y, x);
    var yy := y + PadTop(|left|, target);
    var row := HStack(l, rt)[yy];
    assert row[..|l[yy]|] == l[yy];
    assert row[x] == row[..|l[yy]|][x];
  }

  lemma StitchRightPixel(left: Image, right: Image, colour: Pixel, y: nat, x: nat)
    requires Valid(left) && Valid(right) && y < |right| && x < Width(right)
    ensures var yy := y + PadTop(|right|, Max(|left|, |right|));
            yy < Max(|left|, |right|) && Stitch(left, right, colour)[yy][Width(left) + x] == right[y][x]
  {
    var target := Max(|left|, |right|);
    var l := PadToHeight(left, target, colour);
    var rt := PadToHeight(right, target, colour);
    PadKeepsPixels(right, target, colour, y, x);
    var yy := y + PadTop(|right|, target);
    var row := HStack(l, rt)[yy];
    assert |l[yy]| == Width(left);
    assert row[|l[yy]|..] == rt[yy];
    assert row[Width(left) + x] == row[|l[yy]|..][x];
  }

  /**
   * Each source image can be cut back out of the stitch: the left image's
   * pixels sit at its own columns below its top padding, the right image's
   * pixels to the right of the left image's width below theirs.
   */
  lemma StitchKeepsPixels(left: Image, right: Image, colour: Pixel)
    requires Valid(left) && Valid(right)
    ensures var r := Stitch(left, right, colour);
            var target := Max(|left|, |right|);
            && (forall y, x :: 0 <= y < |left| && 0 <= x < Width(left) ==>
                 r[y + PadTop(|left|, target)][x] == left[y][x])
            && (forall y, x :: 0 <= y < |right| && 0 <= x < Width(right) ==>
                 r[y + PadTop(|right|, target)][Width(left) + x] == right[y][x])
  {
    forall y, x | 0 <= y < |left| && 0 <= x < Width(left)
      ensures Stitch(left, right, colour)[y + PadTop(|left|, Max(|left|, |right|))][x] == left[y][x]
    {
      StitchLeftPixel(left, right, colour, y, x);
    }
    forall y, x | 0 <= y < |right| && 0 <= x < Width(right)
      ensures Stitch(left, right, colour)[y + PadTop(|right|, Max(|left|, |right|))][Width(left) + x] == right[y][x]
    {
      StitchRightPixel(left, right, colour, y, x);
    }
  }

  /** Every pixel of the stitch outside both images is the padding colour. */
  lemma StitchPadding(left: Image, right: Image, colour: Pixel, y: nat, x: nat)
    requires Valid(left) && Valid(right)
    requires y < Max(|left|, |right|) && x < Width(left) + Width(right)
    requires x < Width(left) ==> !(PadTop(|left|, Max(|left|, |right|)) <= y < PadTop(|left|, Max(|left|, |right|)) + |left|)
    requires x >= Width(left) ==> !(PadTop(|right|, Max(|left|, |right|)) <= y < PadTop(|right|, Max(|left|, |right|)) + |right|)
    ensures Stitch(left, right, colour)[y][x] == colour
  {
    var target := Max(|left|, |right|);
    var l := PadToHeight(left, target, colour);
    var rt := PadToHeight(right, target, colour);
    var r := Stitch(left, right, colour);
    assert r[y] == l[y] + rt[y];
    if x < Width(left) {
      assert l[y] == seq(Width(left), _ => colour);
    } else {
      assert rt[y] == seq(Width(right), _ => colour);
    }
  }
}
