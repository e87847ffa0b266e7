/** The sprite animation counter (src/core/animation.cpp): a frame number
    that counts 1, 2, ..., maxFrames and wraps back to 1, and the pixel
    offset of the current frame in a sprite sheet, derived from it. */
module SpriteAnimation {

  /** The frame `update` moves to: the next one while below `maxFrames`,
      otherwise back to the first. */
  function NextFrame(frame: int, maxFrames: int): (f: int)
    ensures f == 1 || (f == frame + 1 && f <= maxFrames)
    ensures 1 <= frame <= maxFrames ==> 1 <= f <= maxFrames
    ensures f == 1 <==> frame >= maxFrames || frame == 0
  {
    if frame < maxFrames then frame + 1 else 1
  }

  /** The frame after `k` updates. */
  function FrameAfter(frame: int, maxFrames: int, k: nat): int {
    if k == 0 then frame else NextFrame(FrameAfter(frame, maxFrames, k - 1), maxFrames)
  }

  /** From the first frame, `k < maxFrames` updates count up to frame `k + 1`. */
  lemma {:induction false} FrameAfterCountsUp(maxFrames: int, k: nat)
    requires k < maxFrames
    ensures FrameAfter(1, maxFrames, k) == k + 1
  {
    if k > 0 {
      FrameAfterCountsUp(maxFrames, k - 1);
    }
  }

  /** Starting from the first frame, exactly `maxFrames` updates bring the
      counter back to the first frame, and no fewer do. */
  lemma CycleLength(maxFrames: int)
    requires maxFrames >= 1
    ensures FrameAfter(1, maxFrames, maxFrames as nat) == 1
    ensures forall k: nat :: 0 < k < maxFrames ==> FrameAfter(1, maxFrames, k) != 1
  {
    FrameAfterCountsUp(maxFrames, maxFrames - 1);
    forall k: nat | 0 < k < maxFrames
      ensures FrameAfter(1, maxFrames, k) != 1
    {
      FrameAfterCountsUp(maxFrames, k);
    }
  }

  /** An `Animation`: public counters and sheet dimensions, private start
      offsets and timer base. */
  class Animation {
    var frameNumber: int
    var maxFrames: int
    var updateTimer: int
    var imageX: int
    var imageY: int
    var imageHeight: int
    var imageWidth: int
    var imageStartX: int
    var imageStartY: int
    var updateTimerBase: int

    /** The frame number lies in 1..maxFrames. */
    ghost predicate Valid()
      reads this
    {
      1 <= frameNumber <= maxFrames
    }

    /** The constructor: first frame, offset at the origin, timer loaded from
        its base. */
    constructor (maxFrames: int, imageWidth: int, imageHeight: int, updateTimerBase: int)
      ensures this.maxFrames == maxFrames && this.imageWidth == imageWidth && this.imageHeight == imageHeight
      ensures this.updateTimerBase == updateTimerBase && updateTimer == updateTimerBase
      ensures imageStartX == 0 && imageStartY == 0 && imageX == 0 && imageY == 0
      ensures frameNumber == 1
      ensures maxFrames >= 1 ==> Valid()
    {
      this.maxFrames := maxFrames;
      this.imageWidth := imageWidth;
      this.imageHeight := imageHeight;
      this.updateTimerBase := updateTimerBase;
      imageStartX, imageStartY := 0, 0;
      imageX, imageY := imageStartX, imageStartY;
      updateTimer := updateTimerBase;
      frameNumber := 1;
    }

    /** `m_setCurrentImage`: the offset of the current frame in the sheet. */
    method SetCurrentImage()
      modifies this`imageX, this`imageY
      ensures imageX == imageWidth * frameNumber && imageY == imageHeight * frameNumber
    {
      imageX := imageWidth * frameNumber;
      imageY := imageHeight * frameNumber;
    }

    /** `update`: advances the frame and recomputes the offset; nothing else
        changes, and a frame number in range stays in range. */
    method Update()
      modifies this`frameNumber, this`imageX, this`imageY
      ensures frameNumber == NextFrame(old(frameNumber), maxFrames)
      ensures imageX == imageWidth * frameNumber && imageY == imageHeight * frameNumber
      ensures old(Valid()) ==> Valid()
    {
      if frameNumber < maxFrames {
        frameNumber := frameNumber + 1;
      } else {
        frameNumber := 1;
      }
      SetCurrentImage();
    }

    /** `setWidth`. */
    method SetWidth(width: int)
      modifies this`imageWidth
      ensures imageWidth == width
    {
      imageWidth := width;
    }

    /** `setHeight` as written: it stores the height into the width and
        leaves the height as it was. */
    method SetHeight(height: int)
      modifies this`imageWidth
      ensures imageWidth == height
    {
      imageWidth := height;
    }

    /** `setHeight` as evidently intended. */
    method SetHeightCorrected(height: int)
      modifies this`imageHeight
      ensures imageHeight == height
    {
      imageHeight := height;
    }

    /** `getWidth`. */
    method GetWidth() returns (width: int)
      ensures width == imageWidth
    {
      width := imageWidth;
    }

    /** `getHeight`. */
    method GetHeight() returns (height: int)
      ensures height == imageHeight
    {
      height := imageHeight;
    }
  }

  /** The counter of a fresh four-frame animation runs 2, 3, 4, 1 and its
      horizontal offset follows the frame. */
  method FourFrameCycle() returns (frames: seq<int>, offsets: seq<int>)
    ensures frames == [2, 3, 4, 1] && offsets == [64, 96, 128, 32]
  {
    var a := new Animation(4, 32, 16, 10);
    frames, offsets := [], [];
    var i := 0;
    while i < 4
      invariant 0 <= i <= 4 && a.maxFrames == 4 && a.imageWidth == 32
      invariant a.frameNumber == FrameAfter(1, 4, i)
      invariant |frames| == |offsets| == i
      invariant forall j :: 0 <= j < i ==> frames[j] == FrameAfter(1, 4, j + 1) && offsets[j] == 32 * frames[j]
    {
      a.Update();
      frames := frames + [a.frameNumber];
      offsets := offsets + [a.imageX];
      i := i + 1;
    }
    CycleLength(4);
    FrameAfterCountsUp(4, 1);
    FrameAfterCountsUp(4, 2);
    FrameAfterCountsUp(4, 3);
  }

  /** `setHeight` as written: a later `getHeight` still reports the old
      height, and `getWidth` reports the height just set. */
  method SetHeightIgnored() returns (width: int, height: int)
    ensures width == 48 && height == 32
  {
    var a := new Animation(4, 32, 32, 10);
    a.SetHeight(48);
    width := a.GetWidth();
    height := a.GetHeight();
  }

  /** The corrected setter: `getHeight` reports the new height and the
      width is untouched. */
  method SetHeightApplied() returns (width: int, height: int)
    ensures width == 32 && height == 48
  {
    var a := new Animation(4, 32, 32, 10);
    a.SetHeightCorrected(48);
    width := a.GetWidth();
    height := a.GetHeight();
  }
}
