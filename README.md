# HorizontalIconView in Dafny

A model of `HorizontalIconView`, an Android view that shows a list of equally
sized icons in one horizontally scrolling row. The model covers the view's
own logic:

- **Measurement.** `measureWidth` and `measureHeight` compute the content extent and the measured size
  under an EXACTLY, AT_MOST or unspecified constraint. Measuring the width also
  stores the scroll range.
- **The draw pass.** The loop in `onDraw` walks the icons at a fixed pitch. It skips
  the icons wholly left of the viewport and stops at the first icon that starts
  past its right edge. It draws the rest and records each drawn icon's bounds in
  the position cache at its visible rank. A cached box is overwritten in place;
  if the cache is too short, a new box is appended.
- **Replacing the icon list.** `setDrawables` decides whether to ask for a new
  layout or only a redraw, and whether to clear the position cache.
- **Edge detection.** `computeScroll` decides whether the left or the right edge
  glow absorbs the scroller's velocity.

Modules:

- `Wrappers` (wrappers.dfy): `Option`. It stands for a Java reference that may be null.
- `Measure` (measure.dfy): the content extent, the measured width and height, and the scroll range.
  These are pure functions with lemmas.
- `Layout` (layout.dfy): the strip geometry (`Strip`: left padding, top padding, icon size,
  spacing) and the viewport tests of the draw loop. It also has the walk
  invariant of the draw pass and the cache update `Overlay`.
- `EdgeSignal` (edge_signal.dfy): the crossing test of `computeScroll`.
- `IconView` (icon_view.dfy): the class `HorizontalIconView`. Its fields are those the source
  updates: the icon list, the position cache, the skipped-icon count and the
  scroll range. It also keeps a ghost log of layout/redraw requests and a log of
  absorbs. Its methods mirror `setDrawables`, `measureWidth`, `onMeasure`,
  `onDraw` and `computeScroll`. Each method is proved against the specification
  functions above.

Some behaviour of the code is easy to misread, and the model keeps it as written:

- Replacing a list with one of the same size still clears the position cache (line 103).
- Replacing a list with null asks for a layout but keeps the cache (lines 93-96).
- The content extent adds the start and end padding to the icons and the gaps (line 212).
- The viewport test is closed at both ends (lines 147 and 153). An icon whose right
  edge equals the scroll position is drawn. So is an icon whose left edge
  equals the viewport's right edge.

## Model

| member | source | states |
|---|---|---|
| Measure.ContentExtent | app/src/main/java/com/zastupailo/widget/scroll/scrollwidget/HorizontalIconView.java:204-212 | the extent is at least the padding plus every icon, and a list of zero or one icons adds no spacing |
| Measure.ExtentGrowsByPitch | app/src/main/java/com/zastupailo/widget/scroll/scrollwidget/HorizontalIconView.java:204-212 | adding an icon to a non-empty list widens the content by exactly icon size plus spacing |
| Measure.MeasuredWidth | app/src/main/java/com/zastupailo/widget/scroll/scrollwidget/HorizontalIconView.java:214-223 | EXACTLY gives the spec size; AT_MOST gives the smaller of extent and spec size; unspecified gives the extent |
| Measure.ScrollRange | app/src/main/java/com/zastupailo/widget/scroll/scrollwidget/HorizontalIconView.java:225-229 | the range is never negative; width plus range always covers the extent; a positive range is exactly the overhang |
| Measure.UnspecifiedNeverScrolls | app/src/main/java/com/zastupailo/widget/scroll/scrollwidget/HorizontalIconView.java:220-229 | an unconstrained width leaves a scroll range of 0 |
| Measure.ConstrainedRangeIsOverhang | app/src/main/java/com/zastupailo/widget/scroll/scrollwidget/HorizontalIconView.java:215-229 | under EXACTLY and AT_MOST the range is how far the extent overhangs the spec size |
| Measure.MeasuredHeight | app/src/main/java/com/zastupailo/widget/scroll/scrollwidget/HorizontalIconView.java:111-125 | EXACTLY gives the spec size; AT_MOST gives the smaller of icon-plus-vertical-padding and spec size; unspecified gives the unclamped sum |
| Layout.Strip.Left | app/src/main/java/com/zastupailo/widget/scroll/scrollwidget/HorizontalIconView.java:141-170 | the left edge the walk accumulates for icon i; no icon starts left of the left padding |
| Layout.Strip.Box | app/src/main/java/com/zastupailo/widget/scroll/scrollwidget/HorizontalIconView.java:158 | the bounds of icon i are a square of side iconSize at its left edge and the top padding |
| Layout.Strip.SkippedLeft | app/src/main/java/com/zastupailo/widget/scroll/scrollwidget/HorizontalIconView.java:147 | the skip test holds exactly when the icon's box ends strictly left of the viewport's left edge |
| Layout.Strip.PastRight | app/src/main/java/com/zastupailo/widget/scroll/scrollwidget/HorizontalIconView.java:153 | the break test holds exactly when the icon's box starts strictly right of the viewport's right edge |
| Layout.Strip.Visible | app/src/main/java/com/zastupailo/widget/scroll/scrollwidget/HorizontalIconView.java:146-159 | an icon is drawn exactly when its box meets the closed viewport [scrollX, scrollX + width] |
| Layout.LeftClosedForm | app/src/main/java/com/zastupailo/widget/scroll/scrollwidget/HorizontalIconView.java:141-170 | the accumulated left edge of icon i is paddingLeft + i*(size+spacing) |
| Layout.NextLeft | app/src/main/java/com/zastupailo/widget/scroll/scrollwidget/HorizontalIconView.java:148-170 | each step of the walk moves the left edge by one pitch |
| Layout.LeftMonotone | app/src/main/java/com/zastupailo/widget/scroll/scrollwidget/HorizontalIconView.java:146-171 | later icons never start further left |
| Layout.SkippedIsPrefix | app/src/main/java/com/zastupailo/widget/scroll/scrollwidget/HorizontalIconView.java:147-151 | the icons the skip test rejects form a prefix of the list |
| Layout.PastRightIsSuffix | app/src/main/java/com/zastupailo/widget/scroll/scrollwidget/HorizontalIconView.java:153-155 | once an icon starts past the right edge, every later icon does too |
| Layout.VisibleContiguous | app/src/main/java/com/zastupailo/widget/scroll/scrollwidget/HorizontalIconView.java:146-171 | the visible icons form one run of consecutive indices |
| Layout.SkipStep | app/src/main/java/com/zastupailo/widget/scroll/scrollwidget/HorizontalIconView.java:147-151 | skipping an icon before anything was drawn extends the skipped prefix |
| Layout.DrawStep | app/src/main/java/com/zastupailo/widget/scroll/scrollwidget/HorizontalIconView.java:153-159 | drawing a visible icon extends the drawn run |
| Layout.WalkDrawsVisibleRun | app/src/main/java/com/zastupailo/widget/scroll/scrollwidget/HorizontalIconView.java:146-171 | a walk that stopped at the end of the list or at an icon past the right edge has drawn exactly the icons that meet the viewport |
| Layout.NeighboursApart | app/src/main/java/com/zastupailo/widget/scroll/scrollwidget/HorizontalIconView.java:158-170 | neighbouring boxes are exactly one spacing apart |
| Layout.ExtentEndsAtLastIcon | app/src/main/java/com/zastupailo/widget/scroll/scrollwidget/HorizontalIconView.java:204-212 | the measured extent ends at the last icon's right edge plus the end padding (start padding taken as the left padding) |
| Layout.ZeroSizedStripCollapses | app/src/main/java/com/zastupailo/widget/scroll/scrollwidget/HorizontalIconView.java:51-65 | with size and spacing left at 0, every icon's box is the same empty box and the extent ignores the icon count |
| Layout.Boxes | app/src/main/java/com/zastupailo/widget/scroll/scrollwidget/HorizontalIconView.java:158-168 | the bounds of a run of icons has one box per icon |
| Layout.BoxesAt | app/src/main/java/com/zastupailo/widget/scroll/scrollwidget/HorizontalIconView.java:158-168 | rank r of a run of bounds from icon f holds the box of icon f+r |
| Layout.Overlay | app/src/main/java/com/zastupailo/widget/scroll/scrollwidget/HorizontalIconView.java:161-168 | after a pass the cache is as long as the longer of the old cache and the pass |
| Layout.OverlayAt | app/src/main/java/com/zastupailo/widget/scroll/scrollwidget/HorizontalIconView.java:161-168 | ranks below the pass's count hold the new boxes; ranks at or above it keep the old entries |
| Layout.OverlayExtend | app/src/main/java/com/zastupailo/widget/scroll/scrollwidget/HorizontalIconView.java:161-168 | writing the next rank overwrites in place when the cache holds it and appends exactly when it does not, never leaving a gap |
| Layout.FiveIconStrip | app/src/main/java/com/zastupailo/widget/scroll/scrollwidget/HorizontalIconView.java:141-171 | five 64-px icons 8 px apart in a 200-px viewport: extent 352, range 152, icons 0-2 drawn at scroll 0 |
| EdgeSignal.Crossing | app/src/main/java/com/zastupailo/widget/scroll/scrollwidget/HorizontalIconView.java:181-195 | no signal when the position does not move; left absorb iff x < 0 <= oldX; right absorb iff oldX <= range < x; at most one, and only when landing outside the range |
| EdgeSignal.NoSignalWithoutCrossing | app/src/main/java/com/zastupailo/widget/scroll/scrollwidget/HorizontalIconView.java:191-195 | moving inside the range, or further out past an edge already crossed, absorbs nothing |
| IconView.ReplacementRequests | app/src/main/java/com/zastupailo/widget/scroll/scrollwidget/HorizontalIconView.java:87-101 | null to null asks nothing; two lists of equal size ask for a redraw; every other replacement asks for a layout |
| IconView.Window | app/src/main/java/com/zastupailo/widget/scroll/scrollwidget/HorizontalIconView.java:157-159 | a draw of icons f..t-1 hands the canvas t-f icons |
| IconView.WindowAt | app/src/main/java/com/zastupailo/widget/scroll/scrollwidget/HorizontalIconView.java:157-161 | the icon drawn at rank r is icon f+r with its own handle and its box on the strip, so drawing is in increasing index order |
| IconView.DrawWalkStart | app/src/main/java/com/zastupailo/widget/scroll/scrollwidget/HorizontalIconView.java:141-143 | before the first icon nothing is skipped, drawn or overwritten |
| IconView.SkipKeepsDrawWalk | app/src/main/java/com/zastupailo/widget/scroll/scrollwidget/HorizontalIconView.java:147-151 | the skip branch keeps the walk invariant: one pitch right, one more skipped, cache untouched |
| IconView.DrawKeepsDrawWalk | app/src/main/java/com/zastupailo/widget/scroll/scrollwidget/HorizontalIconView.java:157-170 | the draw branch keeps the walk invariant: the icon is drawn and its box written at rank i - skipped |
| IconView.DrawWalkEnd | app/src/main/java/com/zastupailo/widget/scroll/scrollwidget/HorizontalIconView.java:146-171 | when the walk ends, the skipped icons are exactly those wholly left of the viewport, the drawn icons are exactly the visible ones in order, and the cache is the old one overlaid with their boxes |
| IconView.HorizontalIconView.constructor | app/src/main/java/com/zastupailo/widget/scroll/scrollwidget/HorizontalIconView.java:67-77 | a view with the icon size and spacing init would load and a scroller, no icons, an empty cache and a scroll range of 0 |
| IconView.HorizontalIconView.Uninitialised | app/src/main/java/com/zastupailo/widget/scroll/scrollwidget/HorizontalIconView.java:51-65 | a view as the source's constructors build it: icon size and spacing are 0 and there is no scroller |
| IconView.HorizontalIconView.IconCount | app/src/main/java/com/zastupailo/widget/scroll/scrollwidget/HorizontalIconView.java:204 | the icon count is 0 exactly for a null or empty list, and the list's length otherwise |
| IconView.HorizontalIconView.Extent | app/src/main/java/com/zastupailo/widget/scroll/scrollwidget/HorizontalIconView.java:204-212 | the extent covers both paddings and every icon, and (start padding equal to left padding) ends at the last drawn box's right edge plus the end padding |
| IconView.HorizontalIconView.SetDrawables | app/src/main/java/com/zastupailo/widget/scroll/scrollwidget/HorizontalIconView.java:87-104 | the requests logged are those of ReplacementRequests; the list becomes the new one; a non-null list clears the cache, a null one leaves it |
| IconView.HorizontalIconView.MeasureWidth | app/src/main/java/com/zastupailo/widget/scroll/scrollwidget/HorizontalIconView.java:200-231 | returns MeasuredWidth of the current extent and stores its ScrollRange; width plus range covers the extent; an unspecified width stores 0 |
| IconView.HorizontalIconView.OnMeasure | app/src/main/java/com/zastupailo/widget/scroll/scrollwidget/HorizontalIconView.java:107-109 | measures both dimensions, the width measurement setting the scroll range |
| IconView.HorizontalIconView.OnDraw | app/src/main/java/com/zastupailo/widget/scroll/scrollwidget/HorizontalIconView.java:128-173 | a null or empty list draws nothing and changes nothing; otherwise the skipped count is exactly the number of icons wholly left of the viewport, the drawn icons are exactly the visible ones, in index order at ranks i - skipped with no gaps, and the new cache is the old one with ranks 0..k-1 overwritten or appended and ranks >= k unchanged |
| IconView.HorizontalIconView.ComputeScroll | app/src/main/java/com/zastupailo/widget/scroll/scrollwidget/HorizontalIconView.java:176-198 | without a scroller the call fails with a null dereference and absorbs nothing; with one, while it runs, one absorb with the scroller's velocity is logged on the edge Crossing names, and nothing otherwise |

## Findings

| source | as written | input that shows it | evidently intended | confidence | as-written member | corrected member |
|---|---|---|---|---|---|---|
| app/src/main/java/com/zastupailo/widget/scroll/scrollwidget/HorizontalIconView.java:51-85 | no constructor calls `init`, so `mIconSize` and `mIconSpacing` keep Java's default 0 (and the scroller and the edge glows stay null) | a view built by any constructor, given three drawables and measured with an unspecified width: the width is the start plus end padding, and every icon is drawn into the same empty box at (paddingLeft, paddingTop); the first computeScroll call dereferences the null scroller (line 177) | every constructor calls `init(context)`, so icons have their resource size and the content grows by one pitch per icon (ExtentGrowsByPitch, ExtentEndsAtLastIcon) | high, not executed | IconView.HorizontalIconView.Uninitialised with Layout.ZeroSizedStripCollapses and IconView.HorizontalIconView.ComputeScroll | IconView.HorizontalIconView.constructor |

## Left out

- Touch handling, velocity tracking, touch slop and fling thresholds. The fields exist (`mActivePointerId`, `mTouchSlop`, `mMinimumVelocity`, `mMaximumVelocity`, `mVelocityTracker`, `mIsBeingDragged`, `mPreviousX`), but no code in the file uses them.
- `init` resource and `ViewConfiguration` lookups. The icon size, the spacing and the paddings are constructor parameters.
- `MeasureSpec` bit packing. The mode is the enum `MeasureMode` and the size is a `nat`.
- `Drawable.setBounds`, `draw`, `copyBounds` and `Canvas`. A drawn icon is a `Placement` record in the sequence `OnDraw` returns.
- Aliasing of the cached `Rect` objects. The source overwrites a cached `Rect` object in place. The model replaces the element of a sequence of values, so code holding on to a cached `Rect` and seeing it change is not modelled.
- `getWidth`, `getScrollX` and the view's paddings. These are platform state: the width and scroll position are parameters of `OnDraw`, and the paddings are constant fields.
- The null dereference in `computeScroll` on a view without a scroller is a returned flag; the Java exception and what the host does with it are not modelled.
- `OverScroller`: `computeScrollOffset`, `getCurrX` and `getCurrVelocity` (a float cast to int). They are the parameters of `ComputeScroll`.
- `overScrollBy` and `onScrollChanged` in `computeScroll`. These are platform calls. The model does not change the scroll position.
- `EdgeEffectCompat` internals. An absorb is logged as an edge and a velocity.
- `requestLayout` and `invalidate`. They are entries of a ghost request log, not behaviour.
- Copying the list in `setDrawables`. Sequences are values, so the stored list is already independent of the caller's.
- Java's 32-bit `int` arithmetic. Extents, edges and ranges are unbounded integers, so wrap-around for very large icon counts, sizes or paddings is not modelled.
- Layout.ExtentEndsAtLastIcon: it relates the extent to the drawn boxes only when the start padding equals the left padding (left-to-right layout). The source reads `getPaddingStart` for measuring and `getPaddingLeft` for drawing.
