/**
 * HorizontalIconView: a horizontally scrolling strip of equally sized icons.
 * The view keeps its icon list, the bounding boxes of the icons drawn in the
 * last pass (indexed by visible rank), how many icons that pass skipped on
 * the left, and the scroll range left behind by the last width measurement.
 */
module IconView {

  import opened Wrappers
  import opened Measure
  import opened Layout
  import opened EdgeSignal

  /** An icon handle; the view never looks inside it. */
  datatype Drawable = Drawable(id: nat)

  /** One icon handed to the canvas: its index in the list, its handle and its bounds. */
  datatype Placement = Placement(index: nat, icon: Drawable, bounds: Rect)

  /** A request the view makes of the host view system. */
  datatype ViewRequest = RequestLayout | Invalidate

  /** An absorb handed to one edge glow, with the scroller's current velocity. */
  datatype Absorb = Absorb(edge: Edge, velocity: int)

  /** The size of an icon list, None for a null list. */
  function SizeOf(list: Option<seq<Drawable>>): (r: Option<nat>) {
    match list
    case None => None
    case Some(icons) => Some(|icons|)
  }

  /**
   * What replacing an icon list of size oldSize by one of size newSize asks
   * of the host: nothing from null to null, a redraw when both lists exist
   * and have equal sizes, a new layout otherwise.
   */
  function ReplacementRequests(oldSize: Option<nat>, newSize: Option<nat>): (r: seq<ViewRequest>)
    ensures r == [] <==> oldSize.None? && newSize.None?
    ensures r == [Invalidate] <==> oldSize.Some? && newSize.Some? && oldSize.value == newSize.value
    ensures r == [RequestLayout] <==>
              (oldSize.Some? || newSize.Some?) && !(oldSize.Some? && newSize.Some? && oldSize.value == newSize.value)
  {
    if oldSize.None? then
      if newSize.None? then [] else [RequestLayout]
    else if newSize.None? then [RequestLayout]
    else if oldSize.value == newSize.value then [Invalidate]
    else [RequestLayout]
  }

  /**
   * What a draw pass hands the canvas when it draws icons from .. to-1 of
   * the list: each icon in index order, with its bounds on the strip.
   */
  function Window(g: Strip, icons: seq<Drawable>, from: nat, to: nat): (w: seq<Placement>)
    requires from <= to <= |icons|
    ensures |w| == to - from
  {
    if to == from then [] else Window(g, icons, from, to - 1) + [Placement(to - 1, icons[to - 1], g.Box(to - 1))]
  }

  /** The icon at rank r of a window is icon from + r of the list, at its place on the strip. */
  lemma {:induction false} WindowAt(g: Strip, icons: seq<Drawable>, from: nat, to: nat, r: nat)
    requires from <= to <= |icons| && r < to - from
    ensures Window(g, icons, from, to)[r] == Placement(from + r, icons[from + r], g.Box(from + r))
  {
    if r < to - from - 1 {
      WindowAt(g, icons, from, to - 1, r);
    }
  }

  /**
   * The state of a draw pass of a view with geometry g over the icon list
   * icons, scrolled to scrollX and width wide, once it has looked at icons
   * 0 .. i-1: left is where icon i starts, icons 0 .. skipped-1 were
   * skipped, icons skipped .. i-1 were drawn in index order, and the cache,
   * which held cache0 when the pass began, holds their boxes at ranks
   * 0 .. i-skipped-1.
   */
  ghost predicate DrawWalk(g: Strip, icons: seq<Drawable>, cache0: seq<Rect>, scrollX: int, width: int,
                           i: nat, left: int, skipped: nat, drawn: seq<Placement>, cache: seq<Rect>)
  {
    i <= |icons| && skipped + |drawn| == i && left == g.Left(i) &&
    WalkedTo(g, skipped, i, scrollX, width) &&
    drawn == Window(g, icons, skipped, i) &&
    (drawn != [] ==> left + g.iconSize >= scrollX) &&
    cache == Overlay(cache0, Boxes(g, skipped, i))
  }

  /** The state before the first icon: nothing skipped, drawn or cached. */
  lemma DrawWalkStart(g: Strip, icons: seq<Drawable>, cache0: seq<Rect>, scrollX: int, width: int)
    ensures DrawWalk(g, icons, cache0, scrollX, width, 0, g.paddingLeft, 0, [], cache0)
  {
    assert Overlay(cache0, []) == cache0;
  }

  /**
   * Skipping icon i because it lies wholly left of the viewport: the walk
   * moves one pitch right and one more icon counts as skipped.
   */
  lemma SkipKeepsDrawWalk(g: Strip, icons: seq<Drawable>, cache0: seq<Rect>, scrollX: int, width: int,
                          i: nat, left: int, skipped: nat, drawn: seq<Placement>, cache: seq<Rect>, nextLeft: int)
    requires DrawWalk(g, icons, cache0, scrollX, width, i, left, skipped, drawn, cache)
    requires i < |icons| && left + g.iconSize < scrollX
    requires nextLeft == left + g.iconSize + g.spacing
    ensures DrawWalk(g, icons, cache0, scrollX, width, i + 1, nextLeft, skipped + 1, drawn, cache)
  {
    assert drawn == [] && skipped == i;
    assert Window(g, icons, i + 1, i + 1) == [] && Boxes(g, i + 1, i + 1) == [];
    SkipStep(g, i, scrollX, width);
    NextLeft(g, i);
  }

  /**
   * Drawing icon i: its box goes to the canvas and into the cache at rank
   * i - skipped, over the cached box there or appended when the cache is
   * that short; the walk moves one pitch right.
   */
  lemma DrawKeepsDrawWalk(g: Strip, icons: seq<Drawable>, cache0: seq<Rect>, scrollX: int, width: int,
                          i: nat, left: int, skipped: nat, drawn: seq<Placement>, cache: seq<Rect>,
                          bounds: Rect, nextCache: seq<Rect>, nextLeft: int)
    requires DrawWalk(g, icons, cache0, scrollX, width, i, left, skipped, drawn, cache)
    requires i < |icons| && left + g.iconSize >= scrollX && left <= scrollX + width
    requires bounds == Rect(left, g.paddingTop, left + g.iconSize, g.paddingTop + g.iconSize)
    requires nextCache == if i - skipped + 1 > |cache| then cache + [bounds] else cache[i - skipped := bounds]
    requires nextLeft == left + g.iconSize + g.spacing
    ensures DrawWalk(g, icons, cache0, scrollX, width, i + 1, nextLeft, skipped,
                     drawn + [Placement(i, icons[i], bounds)], nextCache)
  {
    DrawStep(g, skipped, i, scrollX, width);
    NextLeft(g, i);
    assert bounds == g.Box(i);
    OverlayExtend(cache0, Boxes(g, skipped, i), bounds);
    assert Boxes(g, skipped, i + 1) == Boxes(g, skipped, i) + [bounds];
  }

  /**
   * A walk that ends because it ran out of icons, or because icon i starts
   * past the right edge, has drawn exactly the visible icons, in order, and
   * left their boxes at ranks 0, 1, ... of the cache; the icons it counted
   * as skipped are exactly those wholly left of the viewport.
   */
  lemma DrawWalkEnd(g: Strip, icons: seq<Drawable>, cache0: seq<Rect>, scrollX: int, width: nat,
                    i: nat, left: int, skipped: nat, drawn: seq<Placement>, cache: seq<Rect>)
    requires DrawWalk(g, icons, cache0, scrollX, width, i, left, skipped, drawn, cache)
    requires i == |icons| || left > scrollX + width
    ensures skipped + |drawn| <= |icons|
    ensures drawn == Window(g, icons, skipped, skipped + |drawn|)
    ensures forall j :: 0 <= j < |icons| ==> (skipped <= j < skipped + |drawn| <==> g.Visible(j, scrollX, width))
    ensures cache == Overlay(cache0, Boxes(g, skipped, skipped + |drawn|))
    ensures forall j :: 0 <= j < |icons| ==> (j < skipped <==> g.SkippedLeft(j, scrollX))
  {
    WalkDrawsVisibleRun(g, |icons|, skipped, i, scrollX, width);
    forall j | 0 <= j < |icons|
      ensures j < skipped <==> g.SkippedLeft(j, scrollX)
    {
      if j < skipped {
        assert g.SkippedLeft(j, scrollX);
      } else if j < i {
        assert g.Visible(j, scrollX, width);
      } else {
        LeftMonotone(g, i, j);
      }
    }
  }

  class HorizontalIconView {

    const iconSize: nat
    const iconSpacing: nat
    const paddingLeft: int
    const paddingTop: int
    const paddingBottom: int
    const paddingStart: int
    const paddingEnd: int
    /** Whether the view has a scroller (and its two edge glows); only init creates them. */
    const hasScroller: bool

    /** The icon list; None stands for a null list. */
    var drawables: Option<seq<Drawable>>
    /** Bounds of the icons drawn so far, indexed by visible rank. */
    var iconPositions: seq<Rect>
    /** How many icons the last draw pass skipped on the left. */
    var skippedIconCount: nat
    /** How far the content scrolls, as the last width measurement found it. */
    var scrollRange: nat
    /** The layout and redraw requests made so far. */
    ghost var requests: seq<ViewRequest>
    /** The absorbs handed to the two edge glows so far. */
    var absorbs: seq<Absorb>

    /** A view whose icon size and spacing are known, as init would set them. */
    constructor (iconSize: nat, iconSpacing: nat, paddingLeft: int, paddingTop: int, paddingBottom: int,
                 paddingStart: int, paddingEnd: int)
      ensures this.iconSize == iconSize && this.iconSpacing == iconSpacing && hasScroller
      ensures this.paddingLeft == paddingLeft && this.paddingTop == paddingTop && this.paddingBottom == paddingBottom
      ensures this.paddingStart == paddingStart && this.paddingEnd == paddingEnd
      ensures drawables == None && iconPositions == [] && skippedIconCount == 0 && scrollRange == 0
      ensures requests == [] && absorbs == []
    {
      this.iconSize, this.iconSpacing, hasScroller := iconSize, iconSpacing, true;
      this.paddingLeft, this.paddingTop, this.paddingBottom := paddingLeft, paddingTop, paddingBottom;
      this.paddingStart, this.paddingEnd := paddingStart, paddingEnd;
      drawables, iconPositions, skippedIconCount, scrollRange := None, [], 0, 0;
      requests, absorbs := [], [];
    }

    /**
     * A view built by one of the constructors of the source, none of which
     * calls init: the icon size and spacing keep Java's default of zero, and
     * the scroller and the edge glows stay null.
     */
    constructor Uninitialised(paddingLeft: int, paddingTop: int, paddingBottom: int,
                              paddingStart: int, paddingEnd: int)
      ensures iconSize == 0 && iconSpacing == 0 && !hasScroller
      ensures this.paddingLeft == paddingLeft && this.paddingTop == paddingTop && this.paddingBottom == paddingBottom
      ensures this.paddingStart == paddingStart && this.paddingEnd == paddingEnd
      ensures drawables == None && iconPositions == [] && skippedIconCount == 0 && scrollRange == 0
      ensures requests == [] && absorbs == []
    {
      this.iconSize, this.iconSpacing, hasScroller := 0, 0, false;
      this.paddingLeft, this.paddingTop, this.paddingBottom := paddingLeft, paddingTop, paddingBottom;
      this.paddingStart, this.paddingEnd := paddingStart, paddingEnd;
      drawables, iconPositions, skippedIconCount, scrollRange := None, [], 0, 0;
      requests, absorbs := [], [];
    }

    /** The placement of the icons: left padding, top padding, size and spacing. */
    function Geometry(): (r: Strip) {
      Strip(paddingLeft, paddingTop, iconSize, iconSpacing)
    }

    /** Number of icons, zero for a null list. */
    function IconCount(): (r: nat)
      reads this
      ensures r == 0 <==> drawables.None? || drawables.value == []
      ensures drawables.Some? ==> r == |drawables.value|
    {
      if drawables.None? then 0 else |drawables.value|
    }

    /** The width the icons and the start and end padding need. */
    function Extent(): (r: int)
      reads this
      ensures r >= paddingStart + paddingEnd + IconCount() * iconSize
      ensures paddingStart == paddingLeft && IconCount() > 0 ==> r == Geometry().Box(IconCount() - 1).right + paddingEnd
    {
      if paddingStart == paddingLeft && IconCount() > 0 then
        ExtentEndsAtLastIcon(Geometry(), IconCount(), paddingEnd);
        ContentExtent(IconCount(), iconSize, iconSpacing, paddingStart, paddingEnd)
      else
        ContentExtent(IconCount(), iconSize, iconSpacing, paddingStart, paddingEnd)
    }

    /**
     * Replaces the icon list. A non-null list is stored (sequences are values,
     * so it is a copy) and the position cache is cleared; a null list drops
     * the icons but keeps the cache.
     */
    method SetDrawables(list: Option<seq<Drawable>>)
      modifies this`drawables, this`iconPositions, this`requests
      ensures requests == old(requests) + ReplacementRequests(SizeOf(old(drawables)), SizeOf(list))
      ensures drawables == list
      ensures list.None? ==> iconPositions == old(iconPositions)
      ensures list.Some? ==> iconPositions == []
    {
      if drawables.None? {
        if list.None? {
          return;
        }
        requests := requests + [RequestLayout];
      } else if list.None? {
        requests := requests + [RequestLayout];
        drawables := None;
        return;
      } else if |drawables.value| == |list.value| {
        requests := requests + [Invalidate];
      } else {
        requests := requests + [RequestLayout];
      }
      drawables := list;
      iconPositions := [];
    }

    /**
     * Measures the width under the given constraint and records how far the
     * content overhangs it as the scroll range.
     */
    method MeasureWidth(mode: MeasureMode, specSize: nat) returns (result: int)
      modifies this`scrollRange
      ensures result == MeasuredWidth(mode, specSize, Extent())
      ensures scrollRange == ScrollRange(Extent(), result)
      ensures result + scrollRange >= Extent()
      ensures mode == Unspecified ==> scrollRange == 0
    {
      var maxSize := Extent();
      if mode == Exactly {
        result := specSize;
      } else if mode == AtMost {
        result := if maxSize <= specSize then maxSize else specSize;
      } else {
        result := maxSize;
      }
      if maxSize > result {
        scrollRange := maxSize - result;
      } else {
        scrollRange := 0;
      }
    }

    /** Measures both dimensions; the width measurement sets the scroll range. */
    method OnMeasure(widthMode: MeasureMode, widthSize: nat, heightMode: MeasureMode, heightSize: nat)
      returns (width: int, height: int)
      modifies this`scrollRange
      ensures width == MeasuredWidth(widthMode, widthSize, Extent())
      ensures scrollRange == ScrollRange(Extent(), width)
      ensures height == MeasuredHeight(heightMode, heightSize, iconSize, paddingTop, paddingBottom)
    {
      width := MeasureWidth(widthMode, widthSize);
      height := MeasuredHeight(heightMode, heightSize, iconSize, paddingTop, paddingBottom);
    }

    /**
     * One draw pass with the view scrolled to scrollX and width wide. It
     * walks the icons at a fixed pitch, skips those wholly left of the
     * viewport, stops at the first that starts right of it, and draws the
     * rest; the box of each drawn icon is written into the cache at its
     * visible rank, overwriting a cached box or appending a new one.
     */
    method OnDraw(scrollX: int, width: nat) returns (drawn: seq<Placement>)
      modifies this`iconPositions, this`skippedIconCount
      ensures drawables.None? || drawables.value == [] ==>
                drawn == [] && iconPositions == old(iconPositions) && skippedIconCount == old(skippedIconCount)
      ensures drawables.Some? && drawables.value != [] ==>
                skippedIconCount + |drawn| <= |drawables.value| &&
                drawn == Window(Geometry(), drawables.value, skippedIconCount, skippedIconCount + |drawn|)
      ensures drawables.Some? && drawables.value != [] ==>
                forall i :: 0 <= i < |drawables.value| ==>
                  (skippedIconCount <= i < skippedIconCount + |drawn| <==> Geometry().Visible(i, scrollX, width))
      ensures drawables.Some? && drawables.value != [] ==>
                iconPositions == Overlay(old(iconPositions), Boxes(Geometry(), skippedIconCount, skippedIconCount + |drawn|))
      ensures drawables.Some? && drawables.value != [] ==>
                forall j :: 0 <= j < |drawables.value| ==> (j < skippedIconCount <==> Geometry().SkippedLeft(j, scrollX))
    {
      drawn := [];
      if drawables.None? || |drawables.value| == 0 {
        return;
      }
      var icons := drawables.value;
      var g := Geometry();
      assert g.paddingLeft == paddingLeft && g.paddingTop == paddingTop;
      assert g.iconSize == iconSize && g.spacing == iconSpacing;
      var leftEdge := scrollX;
      var rightEdge := leftEdge + width;
      var left := paddingLeft;
      var top := paddingTop;
      skippedIconCount := 0;
      DrawWalkStart(g, icons, iconPositions, scrollX, width);

      var iconCount := |icons|;
      var i := 0;
      while i < iconCount
        invariant DrawWalk(g, icons, old(iconPositions), scrollX, width, i, left, skippedIconCount, drawn, iconPositions)
      {
        ghost var left0, skipped0, drawn0, cache0 := left, skippedIconCount, drawn, iconPositions;
        if left + iconSize < leftEdge {
          left := left + iconSize + iconSpacing;
          skippedIconCount := skippedIconCount + 1;
          SkipKeepsDrawWalk(g, icons, old(iconPositions), scrollX, width, i, left0, skipped0, drawn0, cache0, left);
        } else if left > rightEdge {
          break;
        } else {
          var bounds := Rect(left, top, left + iconSize, top + iconSize);
          drawn := drawn + [Placement(i, icons[i], bounds)];
          var drawnPosition := i - skippedIconCount;
          if drawnPosition + 1 > |iconPositions| {
            iconPositions := iconPositions + [bounds];
          } else {
            iconPositions := iconPositions[drawnPosition := bounds];
          }
          left := left + iconSize + iconSpacing;
          DrawKeepsDrawWalk(g, icons, old(iconPositions), scrollX, width, i, left0, skipped0, drawn0, cache0,
                            bounds, iconPositions, left);
        }
        i := i + 1;
      }
      DrawWalkEnd(g, icons, old(iconPositions), scrollX, width, i, left, skippedIconCount, drawn, iconPositions);
    }

    /**
     * One scroll step of the scroller. When it is still running and has
     * moved the position from scrollX to currX, the edge glow on the side
     * the position left [0, scrollRange] by absorbs the scroller's velocity.
     * A view without a scroller fails with a null dereference at once:
     * thrown reports it and nothing is absorbed.
     */
    method ComputeScroll(scrollerRunning: bool, scrollX: int, currX: int, velocity: int) returns (thrown: bool)
      modifies this`absorbs
      ensures thrown <==> !hasScroller
      ensures !hasScroller ==> absorbs == old(absorbs)
      ensures hasScroller ==>
                var edge := Crossing(scrollX, currX, scrollRange);
                absorbs == old(absorbs) + (if scrollerRunning && edge.Some? then [Absorb(edge.value, velocity)] else [])
    {
      thrown := !hasScroller;
      if thrown {
        return;
      }
      if scrollerRunning {
        var oldX := scrollX;
        var x := currX;
        if oldX != x {
          if x < 0 && oldX >= 0 {
            absorbs := absorbs + [Absorb(LeftEdge, velocity)];
          } else if x > scrollRange && oldX <= scrollRange {
            absorbs := absorbs + [Absorb(RightEdge, velocity)];
          }
        }
      }
    }
  }
}
