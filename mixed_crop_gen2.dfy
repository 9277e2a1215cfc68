/**
 * The second mixed-crop generator: a handwritten and a printed crop, both
 * kept whole, padded with white to the taller one's height and placed side
 * by side, the handwritten crop on the left. A crop that fails to load is
 * `None`, as `cv2.imread` reports it.
 */
module MixedCropGen2 {
  import opened Py
  import opened Raster

  /** `background_color = (255, 255, 255)`. */
  const White: Pixel := Pixel(255, 255, 255)

  /** `create_mixed_crop`: nothing when either image fails to load. */
  function CreateMixedCrop(hand: Option<Image>, printed: Option<Image>): (r: Option<Image>)
    requires hand.Some? ==> Valid(hand.value)
    requires printed.Some? ==> Valid(printed.value)
    ensures r.None? <==> hand.None? || printed.None?
    ensures r.Some? ==> Valid(r.value)
                        && |r.value| == Max(|hand.value|, |printed.value|)
                        && Width(r.value) == Width(hand.value) + Width(printed.value)
  {
    if hand.None? || printed.None? then None
    else Some(Stitch(hand.value, printed.value, White))
  }

  /**
   * The handwritten crop fills the left columns and the printed crop the
   * right ones, each vertically centred; everything else is white.
   */
  lemma CropLayout(hand: Image, printed: Image)
    requires Valid(hand) && Valid(printed)
    ensures var r := CreateMixedCrop(Some(hand), Some(printed)).value;
            var target := Max(|hand|, |printed|);
            && (forall y, x :: 0 <= y < |hand| && 0 <= x < Width(hand) ==>
                 r[y + PadTop(|hand|, target)][x] == hand[y][x])
            && (forall y, x :: 0 <= y < |printed| && 0 <= x < Width(printed) ==>
                 r[y + PadTop(|printed|, target)][Width(hand) + x] == printed[y][x])
  {
    StitchKeepsPixels(hand, printed, White);
  }

  /** A pixel outside both crops is white. */
  lemma CropBackground(hand: Image, printed: Image, y: nat, x: nat)
    requires Valid(hand) && Valid(printed)
    requires y < Max(|hand|, |printed|) && x < Width(hand) + Width(printed)
    requires x < Width(hand) ==> !(PadTop(|hand|, Max(|hand|, |printed|)) <= y < PadTop(|hand|, Max(|hand|, |printed|)) + |hand|)
    requires x >= Width(hand) ==> !(PadTop(|printed|, Max(|hand|, |printed|)) <= y < PadTop(|printed|, Max(|hand|, |printed|)) + |printed|)
    ensures CreateMixedCrop(Some(hand), Some(printed)).value[y][x] == White
  {
    StitchPadding(hand, printed, White, y, x);
  }
}
