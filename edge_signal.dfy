/**
 * The edge test of computeScroll: when the scroller moves the position out
 * of [0, scrollRange] from inside it, the glow on that side absorbs.
 */
module EdgeSignal {

  import opened Wrappers

  /** The edge glow that receives an absorb. */
  datatype Edge = LeftEdge | RightEdge

  /**
   * The glow, if any, that absorbs when the scroll position moves from oldX
   * to x within a scroll range of scrollRange.
   */
  function Crossing(oldX: int, x: int, scrollRange: nat): (r: Option<Edge>)
    ensures x == oldX ==> r == None
    ensures r == Some(LeftEdge) <==> x < 0 <= oldX
    ensures r == Some(RightEdge) <==> oldX <= scrollRange < x
    ensures r.Some? ==> x < 0 || scrollRange < x
  {
    if oldX == x then None
    else if x < 0 && oldX >= 0 then Some(LeftEdge)
    else if x > scrollRange && oldX <= scrollRange then Some(RightEdge)
    else None
  }

  /** Moving within the range, or further out past an edge already crossed, absorbs nothing. */
  lemma NoSignalWithoutCrossing(oldX: int, x: int, scrollRange: nat)
    requires (0 <= x <= scrollRange) || (oldX < 0 && x < 0) || (oldX > scrollRange && x > scrollRange)
    ensures Crossing(oldX, x, scrollRange) == None
  {
  }
}
