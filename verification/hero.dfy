/**
 * The hero carousel of the home page: three slides, wrap-around previous /
 * next buttons, and a mouse-drag gesture that flips the slide when the drag
 * is longer than 50 pixels. The slide position is `index`; the gesture keeps
 * `isDragging` and `startX` between mouse-down and mouse-up. Pointer
 * positions are JavaScript numbers, so they are `real` here: a drag of
 * 50.5 pixels counts as a long one.
 */
module HeroCarousel {
  import opened Common

  /** Number of slides. */
  const SlideCount := 3

  /** A drag must move strictly more than this many pixels to change slide. */
  const DragThreshold: real := 50.0

  /** `handleNext`: the last slide wraps to the first. */
  function NextIndex(i: int): (r: int)
    ensures 0 <= i < SlideCount ==> 0 <= r < SlideCount && r == (i + 1) % SlideCount
  {
    if i == 2 then 0 else i + 1
  }

  /** `handlePrev`: the first slide wraps to the last. */
  function PrevIndex(i: int): (r: int)
    ensures 0 <= i < SlideCount ==> 0 <= r < SlideCount && r == (i + SlideCount - 1) % SlideCount
  {
    if i == 0 then 2 else i - 1
  }

  /**
   * The slide after a drag of `diff` pixels is released: a drag to the right
   * shows the previous slide, a drag to the left the next one, a short drag
   * keeps the slide.
   */
  function Release(i: int, diff: real): (r: int)
    ensures diff > DragThreshold ==> r == PrevIndex(i)
    ensures diff < -DragThreshold ==> r == NextIndex(i)
    ensures -DragThreshold <= diff <= DragThreshold ==> r == i
  {
    if diff > 50.0 then PrevIndex(i)
    else if diff < -50.0 then NextIndex(i)
    else i
  }

  /** Previous undoes next, and next undoes previous, on every slide. */
  lemma PrevNextInverse(i: int)
    requires 0 <= i < SlideCount
    ensures PrevIndex(NextIndex(i)) == i
    ensures NextIndex(PrevIndex(i)) == i
  {
  }

  /** Three steps in the same direction come back to the starting slide. */
  lemma ThreeStepsAreIdentity(i: int)
    requires 0 <= i < SlideCount
    ensures NextIndex(NextIndex(NextIndex(i))) == i
    ensures PrevIndex(PrevIndex(PrevIndex(i))) == i
  {
  }

  /** Releasing a long drag and then the same drag mirrored returns to the starting slide. */
  lemma DragThereAndBack(i: int, diff: real)
    requires 0 <= i < SlideCount
    ensures Release(Release(i, diff), -diff) == i
  {
    if diff > DragThreshold {
      PrevNextInverse(i);
    } else if diff < -DragThreshold {
      PrevNextInverse(i);
    }
  }

  class Carousel {
    /** The slide shown. */
    var index: int
    /** A mouse-down has happened and no mouse-up since. */
    var isDragging: bool
    /** The pointer's x position at the mouse-down, while dragging. */
    var startX: Option<real>

    /** The slide is one of the three, and a drag is in progress exactly when a start position is held. */
    predicate Valid()
      reads this
    {
      0 <= index < SlideCount && (isDragging <==> startX.Some?)
    }

    constructor ()
      ensures Valid()
      ensures index == 0 && !isDragging && startX == None
    {
      index, isDragging, startX := 0, false, None;
    }

    /** The left button (and a long drag to the right). */
    method HandlePrev()
      requires 0 <= index < SlideCount
      modifies this`index
      ensures 0 <= index < SlideCount
      ensures index == PrevIndex(old(index))
    {
      index := if index == 0 then 2 else index - 1;
    }

    /** The right button (and a long drag to the left, and the auto-slide timer). */
    method HandleNext()
      requires 0 <= index < SlideCount
      modifies this`index
      ensures 0 <= index < SlideCount
      ensures index == NextIndex(old(index))
    {
      index := if index == 2 then 0 else index + 1;
    }

    /** `handleMouseDown`: a drag starts at `x`; the slide does not change. */
    method MouseDown(x: real)
      requires Valid()
      modifies this`isDragging, this`startX
      ensures Valid()
      ensures isDragging && startX == Some(x)
    {
      isDragging := true;
      startX := Some(x);
    }

    /**
     * `handleMouseMove`: while dragging, the slider follows the pointer by
     * `x - startX` pixels; without a drag nothing happens. No field changes,
     * in particular not the slide.
     */
    method MouseMove(x: real) returns (offset: Option<real>)
      requires Valid()
      ensures offset.Some? <==> isDragging
      ensures offset.Some? ==> startX.Some? && startX.value + offset.value == x
    {
      if !isDragging || startX.None? {
        return None;
      }
      var diff := x - startX.value;
      offset := Some(diff);
    }

    /**
     * `handleMouseUp` (also bound to `mouseleave`): without a drag nothing
     * changes; otherwise the drag ends, the start position is cleared and the
     * slide is chosen by `Release` from the distance travelled.
     */
    method MouseUp(x: real)
      requires Valid()
      modifies this`index, this`isDragging, this`startX
      ensures Valid()
      ensures !old(isDragging) ==> unchanged(this)
      ensures old(isDragging) ==>
        && !isDragging && startX == None
        && index == Release(old(index), x - old(startX).value)
    {
      if !isDragging || startX.None? {
        return;
      }
      var diff := x - startX.value;
      isDragging := false;
      if diff > 50.0 {
        HandlePrev();
      } else if diff < -50.0 {
        HandleNext();
      }
      startX := None;
    }
  }

  /** A press, a move and a release: the move never changes the slide, and the release decides it. */
  method DragGesture(c: Carousel, downX: real, moveX: real, upX: real) returns (offset: Option<real>)
    requires c.Valid()
    modifies c
    ensures c.Valid()
    ensures offset == Some(moveX - downX)
    ensures c.index == Release(old(c.index), upX - downX)
    ensures !c.isDragging && c.startX == None
  {
    c.MouseDown(downX);
    offset := c.MouseMove(moveX);
    c.MouseUp(upX);
  }
}
