/**
 * Scroll synchronisation between the improved-prompt editor and the
 * explanation panel: the line at the middle of the editor's viewport picks a
 * change-log entry, and the panel is scrolled to centre that entry's card.
 *
 * Element measurements are plain inputs; `requestAnimationFrame` is a flag
 * saying that a frame callback is queued, and the browser running it is the
 * `OnAnimationFrame` method.
 */
module ScrollSync {
  import opened Wrappers
  import opened Measure
  import opened Improver

  /** Minimum milliseconds between two accepted frames (60 frames a second). */
  const SCROLL_THROTTLE_MS: real := 16.0

  /** Line height used when the computed `line-height` is not a number. */
  const DEFAULT_LINE_HEIGHT: real := 20.0

  /** The editor's line height from its parsed computed style. */
  function TextareaLineHeight(parsed: Option<real>): (r: real)
    ensures parsed.Some? ==> r == parsed.value
    ensures parsed.None? ==> r == DEFAULT_LINE_HEIGHT
  {
    NumberOr(parsed, DEFAULT_LINE_HEIGHT)
  }

  /** The line at the centre of the viewport; a zero line height makes the division non-finite. */
  datatype CenterLine = Line(n: int) | NonFinite

  lemma FloorBand(x: real, lineHeight: real, n: int)
    requires lineHeight > 0.0
    requires n as real <= x / lineHeight < n as real + 1.0
    ensures n as real * lineHeight <= x < (n + 1) as real * lineHeight
  {
    var d := x / lineHeight - n as real;
    assert 0.0 <= d < 1.0;
    assert x == n as real * lineHeight + d * lineHeight;
    assert d * lineHeight >= 0.0;
    assert (1.0 - d) * lineHeight > 0.0;
    assert (1.0 - d) * lineHeight == lineHeight - d * lineHeight;
    assert (n + 1) as real * lineHeight == n as real * lineHeight + lineHeight;
    assert x < n as real * lineHeight + lineHeight;
  }

  /**
   * `floor((scrollTop + clientHeight / 2) / lineHeight)`: the line whose
   * pixel band holds the middle of the viewport.
   */
  function CenterLineNumber(scrollTop: real, clientHeight: real, lineHeight: real): (r: CenterLine)
    ensures r.NonFinite? <==> lineHeight == 0.0
    ensures r.Line? ==> r.n as real <= (scrollTop + clientHeight / 2.0) / lineHeight < r.n as real + 1.0
    ensures r.Line? && lineHeight > 0.0 ==>
              r.n as real * lineHeight <= scrollTop + clientHeight / 2.0 < (r.n + 1) as real * lineHeight
  {
    if lineHeight == 0.0 then NonFinite
    else
      var n := ((scrollTop + clientHeight / 2.0) / lineHeight).Floor;
      if lineHeight > 0.0 then
        FloorBand(scrollTop + clientHeight / 2.0, lineHeight, n);
        Line(n)
      else
        Line(n)
  }

  /** The entry's inclusive line range holds `line`. */
  predicate Contains(imp: ImproveLog, line: int)
  {
    imp.startLine <= line <= imp.endLine
  }

  /** `Math.abs(startLine - line)` */
  function Distance(imp: ImproveLog, line: int): nat
  {
    if imp.startLine >= line then imp.startLine - line else line - imp.startLine
  }

  /**
   * What the lookup of `line` must give: nothing for an empty list; else the
   * first entry containing the line, if there is one; else the first of the
   * entries whose start line is nearest to it.
   */
  predicate IsImprovementAtLine(imps: seq<ImproveLog>, line: int, r: Option<nat>)
  {
    if |imps| == 0 then r.None?
    else
      r.Some? && r.value < |imps|
      && if exists j :: 0 <= j < |imps| && Contains(imps[j], line) then
           Contains(imps[r.value], line) && forall j :: 0 <= j < r.value ==> !Contains(imps[j], line)
         else
           (forall j :: 0 <= j < |imps| ==> Distance(imps[r.value], line) <= Distance(imps[j], line))
           && forall j :: 0 <= j < r.value ==> Distance(imps[r.value], line) < Distance(imps[j], line)
  }

  /** The lookup's answer is determined by the list and the line. */
  lemma ImprovementAtLineUnique(imps: seq<ImproveLog>, line: int, r1: Option<nat>, r2: Option<nat>)
    requires IsImprovementAtLine(imps, line, r1) && IsImprovementAtLine(imps, line, r2)
    ensures r1 == r2
  {
  }

  /** Find the entry that contains the line, or the nearest one when none does. */
  method FindImprovementAtLine(imps: seq<ImproveLog>, line: int) returns (r: Option<nat>)
    ensures IsImprovementAtLine(imps, line, r)
  {
    if |imps| == 0 {
      return None;
    }
    var i := 0;
    while i < |imps|
      invariant 0 <= i <= |imps|
      invariant forall j :: 0 <= j < i ==> !Contains(imps[j], line)
    {
      if line >= imps[i].startLine && line <= imps[i].endLine {
        return Some(i);
      }
      i := i + 1;
    }
    var closestIndex := 0;
    var minDistance := Distance(imps[0], line);
    i := 1;
    while i < |imps|
      invariant 1 <= i <= |imps|
      invariant 0 <= closestIndex < i
      invariant minDistance == Distance(imps[closestIndex], line)
      invariant forall j :: 0 <= j < i ==> minDistance <= Distance(imps[j], line)
      invariant forall j :: 0 <= j < closestIndex ==> minDistance < Distance(imps[j], line)
    {
      var distance := Distance(imps[i], line);
      if distance < minDistance {
        minDistance := distance;
        closestIndex := i;
      }
      i := i + 1;
    }
    return Some(closestIndex);
  }

  /**
   * The lookup for a centre line that may be non-finite. At an infinite or
   * NaN line no range test and no distance comparison succeeds, so the
   * result is the first entry.
   */
  predicate IsImprovementAtCenter(imps: seq<ImproveLog>, center: CenterLine, r: Option<nat>)
  {
    match center
    case Line(n) => IsImprovementAtLine(imps, n, r)
    case NonFinite => r == if |imps| == 0 then None else Some(0)
  }

  method FindImprovementAtCenter(imps: seq<ImproveLog>, center: CenterLine) returns (r: Option<nat>)
    ensures IsImprovementAtCenter(imps, center, r)
    ensures r.None? <==> |imps| == 0
    ensures r.Some? ==> r.value < |imps|
  {
    match center
    case Line(n) =>
      r := FindImprovementAtLine(imps, n);
    case NonFinite =>
      r := if |imps| == 0 then None else Some(0);
  }

  /** The effect installs its scroll listener only when enabled, with an editor and at least one entry. */
  predicate ListenerInstalled(enabled: bool, textareaPresent: bool, imps: seq<ImproveLog>)
  {
    enabled && textareaPresent && |imps| > 0
  }

  /** A client rectangle, as far as it matters here. */
  datatype Rect = Rect(top: real, height: real)

  /** The explanation panel: its client rectangle, scroll offset and viewport height. */
  datatype PanelBox = PanelBox(rect: Rect, scrollTop: real, clientHeight: real)

  /** `cardRefs.current?.[index]`: missing when the list is null, too short or holds null there. */
  function CardAt(cards: Option<seq<Option<Rect>>>, index: nat): Option<Rect>
  {
    if cards.None? || index >= |cards.value| then None else cards.value[index]
  }

  /** The card's top in the panel's content coordinates. */
  function CardTopInPanel(panel: PanelBox, card: Rect): real
  {
    card.top - panel.rect.top + panel.scrollTop
  }

  /**
   * Where the panel is scrolled to show `index`'s card, or `None` when the
   * panel or the card is missing. The target centres the card in the panel's
   * viewport; when that would need a negative offset the panel goes to the
   * top, where the card's middle is already at or above the viewport's.
   */
  function ScrollPanelTarget(index: nat, panel: Option<PanelBox>, cards: Option<seq<Option<Rect>>>): (r: Option<real>)
    ensures r.None? <==> panel.None? || CardAt(cards, index).None?
    ensures r.Some? ==> r.value >= 0.0
    ensures r.Some? && r.value > 0.0 ==>
              CardTopInPanel(panel.value, CardAt(cards, index).value) - r.value + CardAt(cards, index).value.height / 2.0
              == panel.value.clientHeight / 2.0
    ensures r.Some? && r.value == 0.0 ==>
              CardTopInPanel(panel.value, CardAt(cards, index).value) + CardAt(cards, index).value.height / 2.0
              <= panel.value.clientHeight / 2.0
  {
    var card := CardAt(cards, index);
    if panel.None? || card.None? then None
    else
      var target := CardTopInPanel(panel.value, card.value) - panel.value.clientHeight / 2.0 + card.value.height / 2.0;
      Some(ClampNonNegative(target))
  }

  /**
   * The state of one mounted scroll-sync hook: the frame ref, the throttle's
   * last time, the last synced index, the two state values it returns, and
   * what its current effect captured (listener installed, entries, line
   * height).
   */
  class ScrollSyncHook {
    /** `rafIdRef.current !== null` */
    var rafPending: bool
    /** A frame callback is queued with the browser and will run. */
    var frameQueued: bool
    var lastTime: real
    var lastIndex: Option<nat>
    var centerLineNumber: Option<CenterLine>
    var syncedImprovementIndex: Option<nat>
    /** The scroll listener is installed on the editor. */
    var listening: bool
    var improvements: seq<ImproveLog>
    var lineHeight: real

    constructor ()
      ensures !rafPending && !frameQueued && !listening
      ensures lastTime == 0.0 && lastIndex.None?
      ensures centerLineNumber.None? && syncedImprovementIndex.None?
    {
      rafPending := false;
      frameQueued := false;
      lastTime := 0.0;
      lastIndex := None;
      centerLineNumber := None;
      syncedImprovementIndex := None;
      listening := false;
      improvements := [];
      lineHeight := DEFAULT_LINE_HEIGHT;
    }

    /** The frame ref is set exactly while a frame callback is queued. */
    predicate Valid()
      reads this
    {
      rafPending <==> frameQueued
    }

    /** The frame ref is set but no frame will come to clear it. */
    predicate Stuck()
      reads this
    {
      rafPending && !frameQueued
    }

    /**
     * The effect: install the listener only when enabled, with an editor and
     * at least one entry, capturing the entries and the line height.
     */
    method Setup(enabled: bool, textareaPresent: bool, imps: seq<ImproveLog>, parsedLineHeight: Option<real>)
      modifies this`listening, this`improvements, this`lineHeight
      ensures listening == ListenerInstalled(enabled, textareaPresent, imps)
      ensures listening ==> improvements == imps && lineHeight == TextareaLineHeight(parsedLineHeight)
      ensures !listening ==> improvements == old(improvements) && lineHeight == old(lineHeight)
    {
      if !enabled || !textareaPresent || |imps| == 0 {
        listening := false;
        return;
      }
      improvements := imps;
      lineHeight := TextareaLineHeight(parsedLineHeight);
      listening := true;
    }

    /**
     * A scroll event on the editor. With the listener installed and no frame
     * pending it schedules one; otherwise it does nothing.
     */
    method OnScroll() returns (scheduled: bool)
      modifies this`rafPending, this`frameQueued
      ensures scheduled <==> old(listening) && !old(rafPending)
      ensures rafPending == (old(rafPending) || scheduled)
      ensures frameQueued == (old(frameQueued) || scheduled)
      ensures old(Valid()) ==> Valid()
      ensures old(Stuck()) ==> Stuck()
    {
      scheduled := false;
      if !listening {
        return;
      }
      if rafPending {
        return;
      }
      rafPending := true;
      frameQueued := true;
      scheduled := true;
    }

    /**
     * The queued frame runs. It clears the frame ref; a frame less than 16 ms
     * after the last accepted one stops there. Otherwise it records the time
     * and the centre line, looks up the entry there, and only when that entry
     * differs from the last one scrolls the panel to it (`panelScroll` is the
     * `scrollTo` target, `None` when nothing is scrolled) and records it.
     * `resolved` is the lookup's result, `None` for a throttled frame.
     */
    method OnAnimationFrame(timestamp: real, scrollTop: real, clientHeight: real,
                            panel: Option<PanelBox>, cards: Option<seq<Option<Rect>>>)
      returns (resolved: Option<nat>, panelScroll: Option<real>)
      requires frameQueued
      modifies this`rafPending, this`frameQueued, this`lastTime, this`centerLineNumber,
               this`lastIndex, this`syncedImprovementIndex
      ensures !rafPending && !frameQueued && Valid()
      ensures timestamp - old(lastTime) < SCROLL_THROTTLE_MS ==>
                lastTime == old(lastTime) && centerLineNumber == old(centerLineNumber)
                && lastIndex == old(lastIndex) && syncedImprovementIndex == old(syncedImprovementIndex)
                && resolved.None? && panelScroll.None?
      ensures timestamp - old(lastTime) >= SCROLL_THROTTLE_MS ==>
                lastTime == timestamp
                && centerLineNumber == Some(CenterLineNumber(scrollTop, clientHeight, lineHeight))
                && IsImprovementAtCenter(improvements, centerLineNumber.value, resolved)
      ensures var moved := resolved.Some? && resolved != old(lastIndex);
              && lastIndex == (if moved then resolved else old(lastIndex))
              && syncedImprovementIndex == (if moved then resolved else old(syncedImprovementIndex))
              && panelScroll == (if moved then ScrollPanelTarget(resolved.value, panel, cards) else None)
    {
      rafPending := false;
      frameQueued := false;
      resolved, panelScroll := None, None;
      if timestamp - lastTime < SCROLL_THROTTLE_MS {
        return;
      }
      lastTime := timestamp;
      var centerLine := CenterLineNumber(scrollTop, clientHeight, lineHeight);
      centerLineNumber := Some(centerLine);
      resolved := FindImprovementAtCenter(improvements, centerLine);
      if resolved.Some? && resolved != lastIndex {
        panelScroll := ScrollPanelTarget(resolved.value, panel, cards);
        lastIndex := resolved;
        syncedImprovementIndex := resolved;
      }
    }

    /**
     * The effect's cleanup as intended: remove the listener, cancel a pending
     * frame and clear the frame ref with it.
     */
    method Teardown()
      modifies this`listening, this`rafPending, this`frameQueued
      ensures !listening && !rafPending && !frameQueued && Valid()
    {
      listening := false;
      if rafPending {
        frameQueued := false;
        rafPending := false;
      }
      frameQueued := false;
    }

    /**
     * The effect's cleanup as the program has it: the pending frame is
     * cancelled, but the frame ref keeps its id, so a hook torn down with a
     * frame pending is left stuck.
     */
    method TeardownAsWritten()
      modifies this`listening, this`frameQueued
      ensures !listening
      ensures frameQueued == (old(frameQueued) && !old(rafPending))
      ensures old(rafPending) ==> Stuck()
    {
      listening := false;
      if rafPending {
        frameQueued := false;
      }
    }
  }

  /**
   * With the cleanup as written: a scroll, then a change of the entries
   * before the frame runs, and the re-installed listener never schedules a
   * frame again, so scrolling no longer moves the panel.
   */
  method StuckAfterDependencyChange() returns (scheduled: bool, queued: bool)
    ensures !scheduled && !queued
  {
    var hook := new ScrollSyncHook();
    var imps := [ImproveLog(1, 3, "", "")];
    hook.Setup(true, true, imps, None);
    var first := hook.OnScroll();
    hook.TeardownAsWritten();
    hook.Setup(true, true, imps + imps, None);
    scheduled := hook.OnScroll();
    queued := hook.frameQueued;
  }

  /** With the corrected cleanup the same events schedule a new frame. */
  method ResumesAfterDependencyChange() returns (scheduled: bool, queued: bool)
    ensures scheduled && queued
  {
    var hook := new ScrollSyncHook();
    var imps := [ImproveLog(1, 3, "", "")];
    hook.Setup(true, true, imps, None);
    var first := hook.OnScroll();
    hook.Teardown();
    hook.Setup(true, true, imps + imps, None);
    scheduled := hook.OnScroll();
    queued := hook.frameQueued;
  }
}
