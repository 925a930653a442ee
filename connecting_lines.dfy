/**
 * The connectors drawn between the editor's line ranges and the
 * explanation cards: one straight segment per change-log entry, from the
 * middle of the entry's lines on the left edge of the connecting area to the
 * top of its card on the right edge. Element rectangles and styles are
 * plain inputs.
 */
module ConnectingLines {
  import opened Wrappers
  import opened Measure
  import opened Improver

  /** How far below a card's top edge its connector ends, in pixels. */
  const CARD_TOP_OFFSET: real := 20.0

  /** Line height used when the computed `line-height` parses to zero or NaN. */
  const FALLBACK_LINE_HEIGHT: real := 20.0

  datatype Point = Point(x: real, y: real)

  datatype Segment = Segment(start: Point, end: Point, isHovered: bool)

  /** What is read from the editor: its client top, its scroll offset and its parsed line height. */
  datatype TextareaBox = TextareaBox(top: real, scrollTop: real, parsedLineHeight: Option<real>)

  /** `parseFloat(lineHeight) || 20` */
  function ConnectorLineHeight(t: TextareaBox): (lh: real)
    ensures lh != 0.0
  {
    TruthyNumberOr(t.parsedLineHeight, FALLBACK_LINE_HEIGHT)
  }

  /** The start of an entry's connector: the middle of its line range, shifted by the editor's scroll. */
  function BarMidpoint(imp: ImproveLog, t: TextareaBox, lh: real): real
  {
    -t.scrollTop + (imp.startLine - 1) as real * lh + (imp.endLine - imp.startLine + 1) as real * lh / 2.0
  }

  /** The end of an entry's connector: its card's top plus the offset, relative to the editor; 0 without a card. */
  function CardEnd(cards: seq<Option<real>>, index: nat, t: TextareaBox): real
  {
    if index < |cards| && cards[index].Some? then cards[index].value - t.top + CARD_TOP_OFFSET else 0.0
  }

  /**
   * What the connector of entry `i` must be: from the left edge at the middle
   * of the entry's lines, shifted up by the editor's scroll, to the right edge
   * at its card's top plus the offset relative to the editor (0 without a
   * card), hovered exactly when `i` is the hovered index.
   */
  predicate IsConnector(seg: Segment, imp: ImproveLog, i: nat, t: TextareaBox, lh: real,
                        cards: seq<Option<real>>, width: real, hovered: Option<int>)
  {
    && seg.start.x == 0.0
    && seg.end.x == width
    && 2.0 * (seg.start.y + t.scrollTop) == (imp.startLine - 1) as real * lh + imp.endLine as real * lh
    && seg.end.y == (if i < |cards| && cards[i].Some? then cards[i].value - t.top + CARD_TOP_OFFSET else 0.0)
    && (seg.isHovered <==> hovered == Some(i))
  }

  /**
   * The connectors, or `None` when the editor, the card list or the drawing
   * area is missing (the previous connectors then stay). `cards` holds each
   * card's client top, `None` for a missing card; `areaWidth` is the width of
   * the drawing area.
   */
  function CalculateLines(imps: seq<ImproveLog>, textarea: Option<TextareaBox>, cards: Option<seq<Option<real>>>,
                          areaWidth: Option<real>, hovered: Option<int>): (r: Option<seq<Segment>>)
    ensures r.None? <==> textarea.None? || cards.None? || areaWidth.None?
    ensures r.Some? ==> |r.value| == |imps|
    ensures r.Some? ==> forall i :: 0 <= i < |imps| ==>
              IsConnector(r.value[i], imps[i], i, textarea.value, ConnectorLineHeight(textarea.value),
                          cards.value, areaWidth.value, hovered)
  {
    if textarea.None? || cards.None? || areaWidth.None? then None
    else
      var t := textarea.value;
      var lh := ConnectorLineHeight(t);
      var segs := Segments(imps, t, lh, cards.value, areaWidth.value, hovered, 0);
      assert forall i :: 0 <= i < |imps| ==> IsConnector(segs[i], imps[i], i, t, lh, cards.value, areaWidth.value, hovered)
      by {
        forall i | 0 <= i < |imps| {
          MidpointIsRangeMiddle(imps[i], t, lh);
        }
      }
      Some(segs)
  }

  /** The connectors of `imps[from..]`, numbered from `from`. */
  function Segments(imps: seq<ImproveLog>, t: TextareaBox, lh: real, cards: seq<Option<real>>,
                    width: real, hovered: Option<int>, from: nat): (segs: seq<Segment>)
    requires from <= |imps|
    ensures |segs| == |imps| - from
    ensures forall k :: 0 <= k < |segs| ==>
              segs[k] == Segment(Point(0.0, BarMidpoint(imps[from + k], t, lh)),
                                 Point(width, CardEnd(cards, from + k, t)), hovered == Some(from + k))
    decreases |imps| - from
  {
    if from == |imps| then []
    else
      [Segment(Point(0.0, BarMidpoint(imps[from], t, lh)), Point(width, CardEnd(cards, from, t)), hovered == Some(from))]
      + Segments(imps, t, lh, cards, width, hovered, from + 1)
  }

  /** The connector starts halfway between the top of the first line and the bottom of the last. */
  lemma MidpointIsRangeMiddle(imp: ImproveLog, t: TextareaBox, lh: real)
    ensures 2.0 * (BarMidpoint(imp, t, lh) + t.scrollTop) == (imp.startLine - 1) as real * lh + imp.endLine as real * lh
  {
    var s, e := imp.startLine as real, imp.endLine as real;
    assert (imp.startLine - 1) as real == s - 1.0;
    assert (imp.endLine - imp.startLine + 1) as real == e - s + 1.0;
    assert (e - s + 1.0) * lh == e * lh - (s - 1.0) * lh;
  }

  /**
   * Exactly one connector is hovered when the hovered index names an entry,
   * and none otherwise.
   */
  lemma HoveredConnectorUnique(imps: seq<ImproveLog>, textarea: Option<TextareaBox>, cards: Option<seq<Option<real>>>,
                               areaWidth: Option<real>, hovered: Option<int>)
    requires textarea.Some? && cards.Some? && areaWidth.Some?
    ensures var segs := CalculateLines(imps, textarea, cards, areaWidth, hovered).value;
            && (forall i, j :: 0 <= i < j < |segs| ==> !(segs[i].isHovered && segs[j].isHovered))
            && ((exists i :: 0 <= i < |segs| && segs[i].isHovered) <==> hovered.Some? && 0 <= hovered.value < |imps|)
  {
    var segs := CalculateLines(imps, textarea, cards, areaWidth, hovered).value;
    if hovered.Some? && 0 <= hovered.value < |imps| {
      assert segs[hovered.value].isHovered;
    }
  }

  /** How a connector is stroked. */
  datatype StrokeDash = Solid | Dashed
  datatype Stroke = Stroke(primaryColor: bool, width: nat, dash: StrokeDash)

  /** Hovered connectors are drawn in the primary colour, 2 px wide and solid; the rest 1 px and dashed. */
  function StrokeOf(seg: Segment): (s: Stroke)
    ensures s.primaryColor <==> seg.isHovered
    ensures s.dash == Solid <==> seg.isHovered
    ensures s.width == if seg.isHovered then 2 else 1
  {
    if seg.isHovered then Stroke(true, 2, Solid) else Stroke(false, 1, Dashed)
  }

  /**
   * The component's drawn connectors. Each recalculation (mount, a scroll of
   * the editor or the panel, a resize) replaces them, unless a needed element
   * is missing.
   */
  class ConnectingLinesView {
    var lines: seq<Segment>

    constructor ()
      ensures lines == []
    {
      lines := [];
    }

    method Recalculate(imps: seq<ImproveLog>, textarea: Option<TextareaBox>, cards: Option<seq<Option<real>>>,
                       areaWidth: Option<real>, hovered: Option<int>)
      modifies this
      ensures var r := CalculateLines(imps, textarea, cards, areaWidth, hovered);
              lines == if r.Some? then r.value else old(lines)
    {
      var r := CalculateLines(imps, textarea, cards, areaWidth, hovered);
      if r.None? {
        return;
      }
      lines := r.value;
    }
  }
}
