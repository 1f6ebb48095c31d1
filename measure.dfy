/**
 * Measurement of the icon strip: the width its icons need, the measured
 * width and height under a host constraint, and the scroll range that
 * measuring the width leaves behind.
 */
module Measure {

  /** The constraint mode of one dimension of a measure spec. */
  datatype MeasureMode = Exactly | AtMost | Unspecified

  /**
   * Width the content needs: every icon, one gap between each pair of
   * neighbours, and the start and end padding. A list of zero or one icons
   * has no gap at all.
   */
  function ContentExtent(icons: nat, iconSize: nat, spacing: nat, paddingStart: int, paddingEnd: int): (r: int)
    ensures r >= paddingStart + paddingEnd + icons * iconSize
    ensures icons <= 1 ==> r == paddingStart + paddingEnd + icons * iconSize
  {
    var iconSpace := iconSize * icons;
    var dividerSpace := if icons <= 1 then 0 else (icons - 1) * spacing;
    dividerSpace + iconSpace + paddingStart + paddingEnd
  }

  /** Adding an icon to a non-empty list widens the content by exactly one pitch. */
  lemma ExtentGrowsByPitch(icons: nat, iconSize: nat, spacing: nat, paddingStart: int, paddingEnd: int)
    requires icons >= 1
    ensures ContentExtent(icons + 1, iconSize, spacing, paddingStart, paddingEnd)
         == ContentExtent(icons, iconSize, spacing, paddingStart, paddingEnd) + iconSize + spacing
  {
    assert (icons + 1 - 1) * spacing == (icons - 1) * spacing + spacing;
    assert iconSize * (icons + 1) == iconSize * icons + iconSize;
  }

  /**
   * The measured width: the spec size under EXACTLY, the content extent
   * clipped to the spec size under AT_MOST, the content extent otherwise.
   */
  function MeasuredWidth(mode: MeasureMode, specSize: nat, extent: int): (r: int)
    ensures mode == Exactly ==> r == specSize
    ensures mode == AtMost ==> r <= specSize && r <= extent && (r == specSize || r == extent)
    ensures mode == Unspecified ==> r == extent
  {
    match mode
    case Exactly => specSize
    case AtMost => if extent <= specSize then extent else specSize
    case Unspecified => extent
  }

  /**
   * How far the content can scroll inside a viewport of the given width:
   * the part of the content that does not fit, and nothing when it fits.
   */
  function ScrollRange(extent: int, width: int): (r: nat)
    ensures width + r >= extent
    ensures r > 0 ==> width + r == extent
  {
    if extent > width then extent - width else 0
  }

  /** An unconstrained width never leaves anything to scroll. */
  lemma UnspecifiedNeverScrolls(specSize: nat, extent: int)
    ensures ScrollRange(extent, MeasuredWidth(Unspecified, specSize, extent)) == 0
  {
  }

  /**
   * Under EXACTLY and AT_MOST the scroll range is how far the content
   * overhangs the spec size.
   */
  lemma ConstrainedRangeIsOverhang(mode: MeasureMode, specSize: nat, extent: int)
    requires mode != Unspecified
    ensures ScrollRange(extent, MeasuredWidth(mode, specSize, extent)) == ScrollRange(extent, specSize)
  {
  }

  /**
   * The measured height: the spec size under EXACTLY, otherwise one icon
   * plus the vertical padding, clipped to the spec size under AT_MOST.
   */
  function MeasuredHeight(mode: MeasureMode, specSize: nat, iconSize: nat, paddingTop: int, paddingBottom: int): (r: int)
    ensures mode == Exactly ==> r == specSize
    ensures mode == AtMost ==> r <= specSize && r <= iconSize + paddingTop + paddingBottom
    ensures mode == AtMost ==> r == specSize || r == iconSize + paddingTop + paddingBottom
    ensures mode == Unspecified ==> r == iconSize + paddingTop + paddingBottom
  {
    if mode == Exactly then specSize
    else
      var natural := iconSize + paddingTop + paddingBottom;
      if mode == AtMost then (if natural <= specSize then natural else specSize) else natural
  }
}
