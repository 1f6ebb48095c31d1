/**
 * Placement of the icons along the strip, the viewport test the draw pass
 * applies to each icon, and the rank-indexed cache of bounding boxes that
 * the draw pass overwrites in place.
 */
module Layout {

  import Measure

  /** An axis-aligned box in view coordinates (Android's Rect). */
  datatype Rect = Rect(left: int, top: int, right: int, bottom: int)

  /**
   * The uniform geometry of the strip: the first icon starts at the left
   * padding, and each further icon one pitch (icon size plus spacing) later.
   */
  datatype Strip = Strip(paddingLeft: int, paddingTop: int, iconSize: nat, spacing: nat) {

    function Pitch(): (r: nat) {
      iconSize + spacing
    }

    /** Left edge of icon i: the walk adds one pitch per icon, so no icon starts left of the padding. */
    function Left(i: nat): (r: int)
      ensures r >= paddingLeft
    {
      if i == 0 then paddingLeft else Left(i - 1) + Pitch()
    }

    /** Bounds of icon i: a square of side iconSize at (Left(i), paddingTop). */
    function Box(i: nat): (r: Rect)
      ensures r.left == Left(i) && r.left >= paddingLeft && r.top == paddingTop
      ensures r.right - r.left == iconSize && r.bottom - r.top == iconSize
    {
      Rect(Left(i), paddingTop, Left(i) + iconSize, paddingTop + iconSize)
    }

    /** Icon i lies wholly left of the viewport whose left edge is leftEdge. */
    predicate SkippedLeft(i: nat, leftEdge: int): (r: bool)
      ensures r <==> Box(i).right < leftEdge
    {
      Left(i) + iconSize < leftEdge
    }

    /** Icon i starts right of the viewport whose right edge is rightEdge. */
    predicate PastRight(i: nat, rightEdge: int): (r: bool)
      ensures r <==> Box(i).left > rightEdge
    {
      Left(i) > rightEdge
    }

    /**
     * Icon i is drawn when the viewport [scrollX, scrollX + width] is
     * scrolled to: both edges of the viewport count as inside.
     */
    predicate Visible(i: nat, scrollX: int, width: int): (r: bool)
      ensures r <==> scrollX <= Box(i).right && Box(i).left <= scrollX + width
    {
      !SkippedLeft(i, scrollX) && !PastRight(i, scrollX + width)
    }
  }

  /** Icon i starts i pitches right of the left padding. */
  lemma {:induction false} LeftClosedForm(s: Strip, i: nat)
    ensures s.Left(i) == s.paddingLeft + i * s.Pitch()
  {
    if i > 0 {
      LeftClosedForm(s, i - 1);
      assert (i - 1) * s.Pitch() + s.Pitch() == i * s.Pitch();
    }
  }

  /** The walk reaches the next icon by adding one pitch. */
  lemma NextLeft(s: Strip, i: nat)
    ensures s.Left(i + 1) == s.Left(i) + s.iconSize + s.spacing
  {
  }

  /** Icons further along the strip never start further left. */
  lemma {:induction false} LeftMonotone(s: Strip, i: nat, j: nat)
    requires i <= j
    ensures s.Left(i) <= s.Left(j)
  {
    if i < j {
      LeftMonotone(s, i, j - 1);
    }
  }

  /** Once an icon is skipped, every icon before it is skipped too. */
  lemma SkippedIsPrefix(s: Strip, i: nat, j: nat, leftEdge: int)
    requires i <= j && s.SkippedLeft(j, leftEdge)
    ensures s.SkippedLeft(i, leftEdge)
  {
    LeftMonotone(s, i, j);
  }

  /** Once an icon starts past the right edge, every icon after it does too. */
  lemma PastRightIsSuffix(s: Strip, i: nat, j: nat, rightEdge: int)
    requires i <= j && s.PastRight(i, rightEdge)
    ensures s.PastRight(j, rightEdge)
  {
    LeftMonotone(s, i, j);
  }

  /** The visible icons form one run of consecutive indices. */
  lemma VisibleContiguous(s: Strip, i: nat, j: nat, k: nat, scrollX: int, width: int)
    requires i <= j <= k
    requires s.Visible(i, scrollX, width) && s.Visible(k, scrollX, width)
    ensures s.Visible(j, scrollX, width)
  {
    LeftMonotone(s, i, j);
    LeftMonotone(s, j, k);
  }

  /**
   * What a left-to-right walk over the icons has found once it has looked
   * at icons 0 .. i-1: icons 0 .. skipped-1 lie wholly left of the viewport
   * and icons skipped .. i-1 are visible.
   */
  ghost predicate WalkedTo(s: Strip, skipped: nat, i: nat, scrollX: int, width: int) {
    skipped <= i &&
    (forall j :: 0 <= j < skipped ==> s.SkippedLeft(j, scrollX)) &&
    (forall j :: skipped <= j < i ==> s.Visible(j, scrollX, width))
  }

  /** Skipping icon i, when nothing has been drawn yet, extends the skipped prefix. */
  lemma SkipStep(s: Strip, i: nat, scrollX: int, width: int)
    requires WalkedTo(s, i, i, scrollX, width) && s.SkippedLeft(i, scrollX)
    ensures WalkedTo(s, i + 1, i + 1, scrollX, width)
  {
  }

  /** Drawing a visible icon i extends the visible run. */
  lemma DrawStep(s: Strip, skipped: nat, i: nat, scrollX: int, width: int)
    requires WalkedTo(s, skipped, i, scrollX, width) && s.Visible(i, scrollX, width)
    ensures WalkedTo(s, skipped, i + 1, scrollX, width)
  {
  }

  /**
   * A walk over icons 0 .. icons-1 that has looked at icons up to end and
   * stopped there, because it ran out of icons or because icon end starts
   * past the right edge, has drawn exactly the visible icons.
   */
  lemma WalkDrawsVisibleRun(s: Strip, icons: nat, skipped: nat, end: nat, scrollX: int, width: int)
    requires end <= icons && WalkedTo(s, skipped, end, scrollX, width)
    requires end == icons || s.PastRight(end, scrollX + width)
    ensures forall j :: 0 <= j < icons ==> (skipped <= j < end <==> s.Visible(j, scrollX, width))
  {
    forall j | end <= j < icons
      ensures !s.Visible(j, scrollX, width)
    {
      PastRightIsSuffix(s, end, j, scrollX + width);
    }
  }

  /** Neighbouring icons are one spacing apart and never overlap. */
  lemma NeighboursApart(s: Strip, i: nat)
    ensures s.Box(i).right + s.spacing == s.Box(i + 1).left
  {
  }

  /**
   * The measured content extent ends exactly at the right edge of the last
   * icon plus the end padding, when the start padding is the left padding.
   */
  lemma ExtentEndsAtLastIcon(s: Strip, icons: nat, paddingEnd: int)
    requires icons >= 1
    ensures Measure.ContentExtent(icons, s.iconSize, s.spacing, s.paddingLeft, paddingEnd)
         == s.Box(icons - 1).right + paddingEnd
  {
    var n := icons - 1;
    LeftClosedForm(s, n);
    assert n * s.Pitch() == n * s.iconSize + n * s.spacing;
    assert s.iconSize * icons == n * s.iconSize + s.iconSize;
  }

  /** With zero icon size and spacing, every icon collapses onto one empty box. */
  lemma ZeroSizedStripCollapses(s: Strip, i: nat, icons: nat, paddingEnd: int)
    requires s.iconSize == 0 && s.spacing == 0
    ensures s.Box(i) == s.Box(0) && s.Box(i).left == s.Box(i).right
    ensures Measure.ContentExtent(icons, s.iconSize, s.spacing, s.paddingLeft, paddingEnd) == s.paddingLeft + paddingEnd
  {
    LeftClosedForm(s, i);
  }

  /** The bounds of icons from .. to-1, in index order. */
  function Boxes(s: Strip, from: nat, to: nat): (r: seq<Rect>)
    requires from <= to
    ensures |r| == to - from
  {
    if to == from then [] else Boxes(s, from, to - 1) + [s.Box(to - 1)]
  }

  /** Rank r of the bounds of icons from .. to-1 holds the bounds of icon from + r. */
  lemma {:induction false} BoxesAt(s: Strip, from: nat, to: nat, r: nat)
    requires from <= to && r < to - from
    ensures Boxes(s, from, to)[r] == s.Box(from + r)
  {
    if r < to - from - 1 {
      BoxesAt(s, from, to - 1, r);
    }
  }

  /**
   * The position cache after the boxes of one draw pass were written at
   * ranks 0, 1, ...: it grows only as far as the pass needed.
   */
  function Overlay(cache: seq<Rect>, boxes: seq<Rect>): (r: seq<Rect>)
    ensures |r| == if |boxes| <= |cache| then |cache| else |boxes|
  {
    if |boxes| <= |cache| then boxes + cache[|boxes|..] else boxes
  }

  /**
   * After the pass, ranks below the number of boxes hold the new boxes, and
   * any longer tail left from earlier passes is kept as it was.
   */
  lemma OverlayAt(cache: seq<Rect>, boxes: seq<Rect>, k: nat)
    requires k < |Overlay(cache, boxes)|
    ensures k < |boxes| ==> Overlay(cache, boxes)[k] == boxes[k]
    ensures |boxes| <= k ==> k < |cache| && Overlay(cache, boxes)[k] == cache[k]
  {
  }

  /**
   * Writing the next box at the next rank: when the cache already holds that
   * rank the box overwrites it, otherwise it is appended at the end.
   */
  lemma OverlayExtend(cache: seq<Rect>, boxes: seq<Rect>, box: Rect)
    ensures |boxes| <= |Overlay(cache, boxes)|
    ensures |boxes| < |Overlay(cache, boxes)| ==>
              Overlay(cache, boxes)[|boxes| := box] == Overlay(cache, boxes + [box])
    ensures |boxes| == |Overlay(cache, boxes)| ==>
              Overlay(cache, boxes) + [box] == Overlay(cache, boxes + [box])
  {
    var before, after := Overlay(cache, boxes), Overlay(cache, boxes + [box]);
    if |boxes| < |before| {
      assert |after| == |before|;
      forall k | 0 <= k < |after| ensures before[|boxes| := box][k] == after[k] {
        OverlayAt(cache, boxes, k);
        OverlayAt(cache, boxes + [box], k);
      }
    } else {
      assert |after| == |before| + 1;
      forall k | 0 <= k < |after| ensures (before + [box])[k] == after[k] {
        OverlayAt(cache, boxes + [box], k);
        if k < |boxes| {
          OverlayAt(cache, boxes, k);
        }
      }
    }
  }

  /**
   * Five 64-pixel icons 8 pixels apart, no padding, in a 200-pixel viewport
   * at scroll 0: the content is 352 wide, so it scrolls by 152, and icons
   * 0, 1 and 2 are drawn (icon 3 starts at 216, past the right edge).
   */
  lemma FiveIconStrip()
    ensures Measure.ContentExtent(5, 64, 8, 0, 0) == 352
    ensures Measure.ScrollRange(352, Measure.MeasuredWidth(Measure.AtMost, 200, 352)) == 152
    ensures forall i: nat :: i < 5 ==> (Strip(0, 0, 64, 8).Visible(i, 0, 200) <==> i <= 2)
  {
    var s := Strip(0, 0, 64, 8);
    LeftClosedForm(s, 2);
    LeftClosedForm(s, 3);
    assert s.Visible(2, 0, 200) && s.PastRight(3, 200);
    forall i: nat | i < 5
      ensures s.Visible(i, 0, 200) <==> i <= 2
    {
      if i <= 2 {
        VisibleContiguous(s, 0, i, 2, 0, 200);
      } else {
        PastRightIsSuffix(s, 3, i, 200);
      }
    }
  }
}
