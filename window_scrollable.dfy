/**
 * The scroll bookkeeping of a scrollable window: the number of content
 * lines, how many of them are hidden below the one visible line, and the
 * vertical origin of the contents, which the mouse wheel moves a line at a
 * time.
 */
module WindowScrolling {
  import opened Wrappers

  /** `visibleLines()`: the window shows one line. */
  const VisibleLines := 1

  /** `processWheel`'s threshold on the wheel delta. */
  const WheelThreshold := 20

  class WindowScrollable {
    /** `_lines`: set by the drawing code; `None` until then. */
    var lines: Option<int>
    var hiddenLines: int
    /** `origin.y` of the window contents. */
    var originY: int
    /** The number of lines scrolled down from the top. */
    ghost var scrolled: int
    /** `lineHeight()`, which is also `scrollSpeed()`. */
    const lineHeight: int
    /** `standardPadding()`. */
    const standardPadding: int

    constructor(lineHeight: int, standardPadding: int)
      requires lineHeight > 0
      ensures this.lineHeight == lineHeight && this.standardPadding == standardPadding
      ensures lines.None? && hiddenLines == 0 && originY == 0
      ensures Aligned()
    {
      this.lineHeight := lineHeight;
      this.standardPadding := standardPadding;
      lines := None;
      hiddenLines := 0;
      originY := 0;
      scrolled := 0;
    }

    /** The contents are scrolled by whole lines, never above the top, with no negative count of hidden lines. */
    ghost predicate Aligned()
      reads this
    {
      lineHeight > 0 && 0 <= scrolled && originY == scrolled * lineHeight && 0 <= hiddenLines
    }

    /** Where the last line sits below the top of the window: scrolling moves the origin and the hidden count together. */
    function Extent(): int
      reads this
    {
      originY + hiddenLines * lineHeight
    }

    /** `contentsHeight()`: the lines and the padding above and below them, once the line count is known. */
    function ContentsHeight(): (h: int)
      reads this
      requires lines.Some?
      ensures h - 2 * standardPadding == lines.value * lineHeight
    {
      lines.value * lineHeight + standardPadding * 2
    }

    /** `makeLineNumbers()`: an unset or zero line count becomes 1; all lines but the visible one are hidden. */
    method MakeLineNumbers()
      modifies this
      ensures lines.Some? && lines.value != 0
      ensures old(lines).None? || old(lines) == Some(0) ==> lines == Some(1)
      ensures old(lines).Some? && old(lines) != Some(0) ==> lines == old(lines)
      ensures hiddenLines == lines.value - VisibleLines && originY == old(originY) && scrolled == old(scrolled)
      ensures old(Aligned()) && lines.value > 0 ==> Aligned()
    {
      if lines.None? || lines == Some(0) {
        lines := Some(1);
      }
      hiddenLines := lines.value - VisibleLines;
    }

    /** `needScroll()`. */
    function NeedScroll(): (r: bool)
      reads this
      ensures r <==> hiddenLines > 0
    {
      hiddenLines > 0
    }

    /** `scrollDown()`: one line further down. */
    method ScrollDown()
      modifies this
      ensures originY == old(originY) + lineHeight && hiddenLines == old(hiddenLines) - 1
      ensures lines == old(lines) && Extent() == old(Extent()) && scrolled == old(scrolled) + 1
    {
      originY := originY + lineHeight;
      hiddenLines := hiddenLines - 1;
      scrolled := scrolled + 1;
    }

    /** `scrollUp()`: one line further up. */
    method ScrollUp()
      modifies this
      ensures originY == old(originY) - lineHeight && hiddenLines == old(hiddenLines) + 1
      ensures lines == old(lines) && Extent() == old(Extent()) && scrolled == old(scrolled) - 1
    {
      originY := originY - lineHeight;
      hiddenLines := hiddenLines + 1;
      scrolled := scrolled - 1;
    }

    /**
     * `processWheel()` with the wheel delta `wheelY`: a strong enough turn
     * down scrolls down while lines are hidden, one up scrolls up while
     * the contents are below the top.
     */
    method ProcessWheel(wheelY: int)
      modifies this
      ensures wheelY >= WheelThreshold && old(hiddenLines) > 0 ==>
                originY == old(originY) + lineHeight && hiddenLines == old(hiddenLines) - 1
      ensures wheelY <= -WheelThreshold && old(originY) > 0 ==>
                originY == old(originY) - lineHeight && hiddenLines == old(hiddenLines) + 1
      ensures !(wheelY >= WheelThreshold && old(hiddenLines) > 0) && !(wheelY <= -WheelThreshold && old(originY) > 0) ==>
                originY == old(originY) && hiddenLines == old(hiddenLines)
      ensures lines == old(lines) && Extent() == old(Extent())
      ensures old(Aligned()) ==> Aligned()
    {
      var threshold := WheelThreshold;
      if wheelY >= threshold && NeedScroll() {
        ScrollDown();
      }
      if wheelY <= -threshold && originY > 0 {
        ScrollUp();
      }
    }
  }
}
