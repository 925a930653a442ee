/**
 * The overlay drawn over the improved-prompt editor: one vertical bar per
 * change-log entry beside the lines it covers, and a band behind the lines
 * of the hovered entry. The editor's computed line height and top padding
 * are parsed inputs. The overlay keeps its own copy of the editor's scroll
 * offset, which only the editor's scroll events update.
 */
module LineHighlightOverlay {
  import opened Wrappers
  import opened Improver

  /** How far a bar reaches beyond its lines, above and below, in pixels. */
  const OVERLAY_PADDING: real := 2.0

  /** The shortest bar, in pixels. */
  const MIN_BAR_HEIGHT: real := 12.0

  /** Horizontal step between the bars of consecutive entries, in pixels. */
  const BAR_STEP: real := 4.0

  /** The two editor metrics the geometry depends on. */
  datatype Metrics = Metrics(lineHeight: real, paddingTop: real)

  /** The metrics before the editor is measured. */
  const INITIAL_METRICS := Metrics(20.0, 8.0)

  /**
   * The mount effect's measurement: with an editor present, each metric is
   * replaced by its parsed computed value when that is a number, and kept
   * otherwise; without an editor nothing changes.
   */
  function MeasureMetrics(current: Metrics, textareaPresent: bool,
                          parsedLineHeight: Option<real>, parsedPaddingTop: Option<real>): (m: Metrics)
    ensures !textareaPresent ==> m == current
    ensures m.lineHeight == if textareaPresent && parsedLineHeight.Some? then parsedLineHeight.value else current.lineHeight
    ensures m.paddingTop == if textareaPresent && parsedPaddingTop.Some? then parsedPaddingTop.value else current.paddingTop
  {
    if !textareaPresent then current
    else Metrics(parsedLineHeight.GetOr(current.lineHeight), parsedPaddingTop.GetOr(current.paddingTop))
  }

  /** The first pixel row of a 1-based line in the editor's content. */
  function LineTop(m: Metrics, line: int): real
  {
    (line - 1) as real * m.lineHeight + m.paddingTop
  }

  /** The pixel row just below a line. */
  function LineBottom(m: Metrics, line: int): real
  {
    LineTop(m, line) + m.lineHeight
  }

  /** A bar's top: `OVERLAY_PADDING` above its first line. */
  function CalculateTop(m: Metrics, line: int): (top: real)
    ensures top + OVERLAY_PADDING == LineTop(m, line)
  {
    (line - 1) as real * m.lineHeight + m.paddingTop - OVERLAY_PADDING
  }

  /** The padded height of a line range, never below `MIN_BAR_HEIGHT`. */
  function CalculateHeight(m: Metrics, startLine: int, endLine: int): (h: real)
    ensures h >= MIN_BAR_HEIGHT
    ensures h >= (endLine - startLine + 1) as real * m.lineHeight + 2.0 * OVERLAY_PADDING
    ensures h == MIN_BAR_HEIGHT || h == (endLine - startLine + 1) as real * m.lineHeight + 2.0 * OVERLAY_PADDING
  {
    var natural := (endLine - startLine + 1) as real * m.lineHeight + OVERLAY_PADDING * 2.0;
    if natural >= MIN_BAR_HEIGHT then natural else MIN_BAR_HEIGHT
  }

  /** Consecutive lines start one line height apart. */
  lemma {:induction false} TopStepsByLineHeight(m: Metrics, line: int)
    ensures CalculateTop(m, line + 1) == CalculateTop(m, line) + m.lineHeight
  {
    assert (line + 1 - 1) as real * m.lineHeight == (line - 1) as real * m.lineHeight + m.lineHeight;
  }

  /** With a non-negative line height a range that spans more lines gets a bar at least as tall. */
  lemma HeightMonotone(m: Metrics, s1: int, e1: int, s2: int, e2: int)
    requires m.lineHeight >= 0.0
    requires e1 - s1 <= e2 - s2
    ensures CalculateHeight(m, s1, e1) <= CalculateHeight(m, s2, e2)
  {
    var k1, k2 := (e1 - s1 + 1) as real, (e2 - s2 + 1) as real;
    assert k1 <= k2;
    assert (k2 - k1) * m.lineHeight >= 0.0;
    assert k2 * m.lineHeight - k1 * m.lineHeight == (k2 - k1) * m.lineHeight;
  }

  /**
   * A bar reaches from `OVERLAY_PADDING` above its first line to at least
   * `OVERLAY_PADDING` below its last line.
   */
  lemma BarCoversRange(m: Metrics, startLine: int, endLine: int)
    ensures CalculateTop(m, startLine) == LineTop(m, startLine) - OVERLAY_PADDING
    ensures CalculateTop(m, startLine) + CalculateHeight(m, startLine, endLine)
            >= LineBottom(m, endLine) + OVERLAY_PADDING
  {
    var lh := m.lineHeight;
    assert (startLine - 1) as real * lh + (endLine - startLine + 1) as real * lh == (endLine - 1) as real * lh + lh;
  }

  /** `index * 4`: the bar offset grows with the index and ignores the ranges. */
  function BarOffset(index: nat): real
  {
    index as real * BAR_STEP
  }

  /** The bar's distance from the right edge. */
  function RightOffset(index: nat): (r: real)
    ensures r >= OVERLAY_PADDING
  {
    OVERLAY_PADDING + BarOffset(index)
  }

  /** Later entries' bars sit further left, so no two bars share an offset. */
  lemma RightOffsetStrictlyIncreasing(i: nat, j: nat)
    requires i < j
    ensures RightOffset(i) < RightOffset(j)
    ensures RightOffset(j) - RightOffset(i) == (j - i) as real * BAR_STEP
  {
  }

  /** One drawn bar; `emphasised` is the hovered styling. */
  datatype Bar = Bar(top: real, height: real, right: real, emphasised: bool)

  /** The bars of the entries, in entry order. */
  function Bars(imps: seq<ImproveLog>, m: Metrics, hovered: Option<int>): (bars: seq<Bar>)
    ensures |bars| == |imps|
    ensures forall i :: 0 <= i < |bars| ==>
              bars[i].top == CalculateTop(m, imps[i].startLine)
              && bars[i].height == CalculateHeight(m, imps[i].startLine, imps[i].endLine)
              && bars[i].right == RightOffset(i)
              && (bars[i].emphasised <==> hovered == Some(i))
  {
    if imps == [] then []
    else
      var rest := Bars(imps[..|imps| - 1], m, hovered);
      var i := |imps| - 1;
      rest + [Bar(CalculateTop(m, imps[i].startLine), CalculateHeight(m, imps[i].startLine, imps[i].endLine),
                  RightOffset(i), hovered == Some(i))]
  }

  /** Distinct entries' bars never share a right offset, overlapping or not. */
  lemma BarsHaveDistinctOffsets(imps: seq<ImproveLog>, m: Metrics, hovered: Option<int>, i: nat, j: nat)
    requires i < |imps| && j < |imps| && i != j
    ensures Bars(imps, m, hovered)[i].right != Bars(imps, m, hovered)[j].right
  {
    if i < j { RightOffsetStrictlyIncreasing(i, j); } else { RightOffsetStrictlyIncreasing(j, i); }
  }

  /**
   * Entries covering lines 1-3, 3-5 and 6-9: the first two overlap and get
   * different offsets, and the third, disjoint from both, still gets a new one.
   */
  lemma OffsetsOfThreeEntries(m: Metrics, hovered: Option<int>)
    ensures var bars := Bars([ImproveLog(1, 3, "", ""), ImproveLog(3, 5, "", ""), ImproveLog(6, 9, "", "")], m, hovered);
            bars[0].right == 2.0 && bars[1].right == 6.0 && bars[2].right == 10.0
  {
  }

  /** At most one bar is emphasised: the hovered one, when it exists. */
  lemma AtMostOneEmphasised(imps: seq<ImproveLog>, m: Metrics, hovered: Option<int>, i: nat, j: nat)
    requires i < |imps| && j < |imps|
    requires Bars(imps, m, hovered)[i].emphasised && Bars(imps, m, hovered)[j].emphasised
    ensures i == j
  {
  }

  /** The band behind the hovered entry's lines. */
  datatype Band = Band(top: real, height: real)

  /**
   * `hoveredIndex !== null && improvements[hoveredIndex]`: a band only for an
   * index naming an existing entry, with that entry's bar geometry.
   */
  function HighlightBand(imps: seq<ImproveLog>, m: Metrics, hovered: Option<int>): (band: Option<Band>)
    ensures band.Some? <==> hovered.Some? && 0 <= hovered.value < |imps|
    ensures band.Some? ==>
              band.value == Band(CalculateTop(m, imps[hovered.value].startLine),
                                 CalculateHeight(m, imps[hovered.value].startLine, imps[hovered.value].endLine))
  {
    if hovered.Some? && 0 <= hovered.value < |imps| then
      var imp := imps[hovered.value];
      Some(Band(CalculateTop(m, imp.startLine), CalculateHeight(m, imp.startLine, imp.endLine)))
    else None
  }

  /**
   * There is a band exactly when some bar is emphasised, and the band has
   * that bar's top and height.
   */
  lemma BandMatchesEmphasisedBar(imps: seq<ImproveLog>, m: Metrics, hovered: Option<int>)
    ensures HighlightBand(imps, m, hovered).Some?
            <==> exists i :: 0 <= i < |imps| && Bars(imps, m, hovered)[i].emphasised
    ensures forall i :: 0 <= i < |imps| && Bars(imps, m, hovered)[i].emphasised ==>
              var b := Bars(imps, m, hovered)[i];
              HighlightBand(imps, m, hovered) == Some(Band(b.top, b.height))
  {
    var bars := Bars(imps, m, hovered);
    var band := HighlightBand(imps, m, hovered);
    if band.Some? {
      assert bars[hovered.value].emphasised;
    }
    forall i | 0 <= i < |imps| && bars[i].emphasised
      ensures band == Some(Band(bars[i].top, bars[i].height))
    {
      assert hovered == Some(i);
    }
  }

  /** What the overlay draws: the vertical shift by the overlay's scroll offset, the bars, the band. */
  datatype Overlay = Overlay(translateY: real, bars: seq<Bar>, band: Option<Band>)

  function Render(imps: seq<ImproveLog>, m: Metrics, scrollTop: real, hovered: Option<int>): (o: Overlay)
    ensures o.translateY == -scrollTop
    ensures o.bars == Bars(imps, m, hovered) && o.band == HighlightBand(imps, m, hovered)
  {
    Overlay(-scrollTop, Bars(imps, m, hovered), HighlightBand(imps, m, hovered))
  }

  /**
   * The overlay's own state: the metrics it measured, the scroll offset the
   * last scroll event delivered, and whether its scroll listener is
   * registered.
   */
  class OverlayState {
    var metrics: Metrics
    var scrollTop: real
    var listening: bool

    /** Before the mount effect: the initial metrics, offset 0, no listener. */
    constructor ()
      ensures metrics == INITIAL_METRICS && scrollTop == 0.0 && !listening
    {
      metrics := INITIAL_METRICS;
      scrollTop := 0.0;
      listening := false;
    }

    /**
     * The mount effect: without an editor it returns before measuring and
     * before registering the listener; with one it measures and listens.
     * The editor's current scroll offset is not read.
     */
    method Mount(textareaPresent: bool, parsedLineHeight: Option<real>, parsedPaddingTop: Option<real>)
      modifies this`metrics, this`listening
      ensures metrics == MeasureMetrics(old(metrics), textareaPresent, parsedLineHeight, parsedPaddingTop)
      ensures listening == (textareaPresent || old(listening))
    {
      if !textareaPresent {
        return;
      }
      metrics := MeasureMetrics(metrics, textareaPresent, parsedLineHeight, parsedPaddingTop);
      listening := true;
    }

    /** The editor scrolls to `editorScrollTop`; only a registered listener copies it. */
    method OnEditorScroll(editorScrollTop: real)
      modifies this`scrollTop
      ensures scrollTop == if listening then editorScrollTop else old(scrollTop)
    {
      if listening {
        scrollTop := editorScrollTop;
      }
    }

    /** The effect's cleanup removes the listener. */
    method Unmount()
      modifies this`listening
      ensures !listening
    {
      listening := false;
    }

    /** What the overlay draws now. */
    function View(imps: seq<ImproveLog>, hovered: Option<int>): Overlay
      reads this
    {
      Render(imps, metrics, scrollTop, hovered)
    }
  }

  /**
   * An overlay mounted over an editor that is already scrolled draws its
   * bars unshifted until the editor's next scroll event, after which it
   * follows that event's offset.
   */
  method MountedOverScrolledEditor(imps: seq<ImproveLog>, hovered: Option<int>, nextScrollTop: real)
    returns (before: Overlay, after: Overlay)
    ensures before.translateY == 0.0
    ensures after.translateY == -nextScrollTop
    ensures before.bars == after.bars == Bars(imps, INITIAL_METRICS, hovered)
  {
    var o := new OverlayState();
    o.Mount(true, None, None);
    before := o.View(imps, hovered);
    o.OnEditorScroll(nextScrollTop);
    after := o.View(imps, hovered);
  }
}
